/** Tenant lookup and the conversation log (utils/db_utils.py). */
module DbUtils {
  import opened Text
  import opened Database

  // ---------------------------------------------------------------------------
  // get_conta_id_from_number
  // ---------------------------------------------------------------------------

  /** The id of the first conta whose WhatsApp number is `number`. */
  function FirstContaWithNumber(contas: seq<Conta>, number: string): (r: Option<int>)
    ensures r.None? <==> forall i :: 0 <= i < |contas| ==> contas[i].whatsappNumber != Some(number)
    ensures r.Some? ==> exists i :: 0 <= i < |contas| && contas[i].whatsappNumber == Some(number)
                                 && contas[i].id == r.value
                                 && forall j :: 0 <= j < i ==> contas[j].whatsappNumber != Some(number)
  {
    if contas == [] then None
    else if contas[0].whatsappNumber == Some(number) then Some(contas[0].id)
    else
      var r := FirstContaWithNumber(contas[1..], number);
      if r.Some? then
        var tail := contas[1..];
        var i :| 0 <= i < |tail| && tail[i].whatsappNumber == Some(number) && tail[i].id == r.value
                 && forall j :: 0 <= j < i ==> tail[j].whatsappNumber != Some(number);
        assert contas[i + 1] == tail[i];
        assert forall j :: 1 <= j < i + 1 ==> contas[j] == tail[j - 1];
        r
      else r
  }

  /** `get_conta_id_from_number`: the tenant owning a WhatsApp number, or `None`
      when no conta has it or the database cannot be reached (the error is
      swallowed). */
  function ContaIdFromNumber(contas: seq<Conta>, number: string, dbUp: bool): (r: Option<int>)
    ensures !dbUp ==> r.None?
    ensures dbUp && r.None? ==> forall i :: 0 <= i < |contas| ==> contas[i].whatsappNumber != Some(number)
    ensures r.Some? ==> exists i :: 0 <= i < |contas| && contas[i].whatsappNumber == Some(number)
                                 && contas[i].id == r.value
  {
    if dbUp then FirstContaWithNumber(contas, number) else None
  }

  // ---------------------------------------------------------------------------
  // salvar_conversa
  // ---------------------------------------------------------------------------

  /** `salvar_conversa`: appends one unread row stamped with the caller-supplied
      time. The connection is opened outside the `try`, so a database that cannot
      be reached raises to the caller before any write and leaves the log as it
      was; the callers here turn that into their own failure status. */
  method SaveConversation(db: Store, env: Env, contaId: int, contato: string,
                          mensagemUsuario: string, respostaBot: string, now: int)
    modifies db`conversas
    ensures env.dbUp ==>
      db.conversas == old(db.conversas) + [Conversa(contaId, contato, mensagemUsuario, respostaBot, now, false)]
    ensures !env.dbUp ==> db.conversas == old(db.conversas)
  {
    if env.dbUp {
      db.conversas := db.conversas + [Conversa(contaId, contato, mensagemUsuario, respostaBot, now, false)];
    }
  }

  // ---------------------------------------------------------------------------
  // Threads and get_last_bot_message
  // ---------------------------------------------------------------------------

  /** A row belongs to the conversation of `contato` with tenant `contaId`. */
  predicate InThread(c: Conversa, contaId: int, contato: string)
  {
    c.contaId == contaId && c.contato == contato
  }

  /** The rows of one conversation, in table order. */
  function Thread(rows: seq<Conversa>, contaId: int, contato: string): (t: seq<Conversa>)
    ensures forall c :: c in t <==> c in rows && InThread(c, contaId, contato)
    ensures |t| <= |rows|
  {
    if rows == [] then []
    else
      var init := Thread(rows[..|rows| - 1], contaId, contato);
      var last := rows[|rows| - 1];
      assert rows == rows[..|rows| - 1] + [last];
      if InThread(last, contaId, contato) then init + [last] else init
  }

  /** The row with the latest timestamp in the conversation; among rows with the
      same timestamp, the first in table order. */
  function Latest(rows: seq<Conversa>, contaId: int, contato: string): (r: Option<Conversa>)
    ensures r.None? <==> forall j :: 0 <= j < |rows| ==> !InThread(rows[j], contaId, contato)
    ensures r.Some? ==> r.value in rows && InThread(r.value, contaId, contato)
    ensures r.Some? ==> forall j :: 0 <= j < |rows| && InThread(rows[j], contaId, contato) ==>
                                     rows[j].dataHora <= r.value.dataHora
  {
    if rows == [] then None
    else
      var init := rows[..|rows| - 1];
      var prev := Latest(init, contaId, contato);
      var last := rows[|rows| - 1];
      assert forall j :: 0 <= j < |rows| - 1 ==> rows[j] == init[j];
      if InThread(last, contaId, contato) && (prev.None? || last.dataHora > prev.value.dataHora)
      then Some(last)
      else prev
  }

  /** `get_last_bot_message`: the reply logged last in the conversation, or
      `None` when it is empty or the database cannot be reached. */
  function LastBotMessage(rows: seq<Conversa>, contaId: int, contato: string, dbUp: bool): (r: Option<string>)
    ensures r.Some? ==> exists j :: 0 <= j < |rows| && InThread(rows[j], contaId, contato)
                                  && rows[j].respostaBot == r.value
                                  && forall k :: 0 <= k < |rows| && InThread(rows[k], contaId, contato) ==>
                                                   rows[k].dataHora <= rows[j].dataHora
    ensures dbUp && r.None? ==> forall j :: 0 <= j < |rows| ==> !InThread(rows[j], contaId, contato)
    ensures !dbUp ==> r.None?
  {
    if !dbUp then None
    else
      var l := Latest(rows, contaId, contato);
      if l.Some? then
        assert exists j :: 0 <= j < |rows| && rows[j] == l.value;
        Some(l.value.respostaBot)
      else None
  }

  /** Rows of other tenants or other contacts never influence the latest reply:
      it is the same when computed over the conversation's own rows alone. */
  lemma {:induction false} LatestIgnoresOtherThreads(rows: seq<Conversa>, contaId: int, contato: string)
    ensures Latest(rows, contaId, contato) == Latest(Thread(rows, contaId, contato), contaId, contato)
  {
    if rows != [] {
      var init := rows[..|rows| - 1];
      var last := rows[|rows| - 1];
      LatestIgnoresOtherThreads(init, contaId, contato);
      var t := Thread(init, contaId, contato);
      if InThread(last, contaId, contato) {
        assert (t + [last])[..|t + [last]| - 1] == t;
      }
    }
  }

  /** Appending a row of another conversation leaves the latest reply unchanged. */
  lemma LastBotMessageOtherAppend(rows: seq<Conversa>, c: Conversa, contaId: int, contato: string, dbUp: bool)
    requires !InThread(c, contaId, contato)
    ensures LastBotMessage(rows + [c], contaId, contato, dbUp) == LastBotMessage(rows, contaId, contato, dbUp)
  {
    assert (rows + [c])[..|rows + [c]| - 1] == rows;
  }

  /** After a save with a timestamp later than every logged one, the latest reply
      of that conversation is the one just saved. */
  lemma LastBotMessageAfterSave(rows: seq<Conversa>, c: Conversa)
    requires forall j :: 0 <= j < |rows| ==> rows[j].dataHora < c.dataHora
    ensures LastBotMessage(rows + [c], c.contaId, c.contato, true) == Some(c.respostaBot)
  {
    assert (rows + [c])[..|rows + [c]| - 1] == rows;
  }
}
