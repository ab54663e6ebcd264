/** The shopkeeper's conversation panel (routes/ver_conversas.py): the contact
    summary, opening a conversation (which marks it read) and replying by hand,
    which switches the customer's open sales to manual service. */
module Panel {
  import opened Text
  import opened Database
  import opened DbUtils
  import opened Twilio
  import opened Sorting
  import Webhook

  const PanelMarker := "--- RESPOSTA MANUAL DO PAINEL ---"
  const AttendantPrefix := "[ATENDENTE]: "
  const Manual := "manual"

  // ---------------------------------------------------------------------------
  // get_historico_contato
  // ---------------------------------------------------------------------------

  /** The log after `UPDATE conversas SET lido = TRUE` on one conversation. */
  function MarkRead(rows: seq<Conversa>, contaId: int, contato: string): seq<Conversa>
  {
    seq(|rows|, i requires 0 <= i < |rows| =>
      if InThread(rows[i], contaId, contato) then rows[i].(lido := true) else rows[i])
  }

  /** The history the endpoint returns: the conversation's rows by ascending time. */
  function HistoryOf(rows: seq<Conversa>, contaId: int, contato: string): seq<Conversa>
  {
    SortBy(Thread(rows, contaId, contato), (c: Conversa) => c.dataHora)
  }

  datatype HistoryResult = History(rows: seq<Conversa>) | HistoryError

  /** Marks the rows of one conversation read, one row at a time. */
  method MarkThreadRead(db: Store, contaId: int, contato: string)
    modifies db`conversas
    ensures db.conversas == MarkRead(old(db.conversas), contaId, contato)
  {
    ghost var before := db.conversas;
    var i := 0;
    while i < |db.conversas|
      invariant 0 <= i <= |db.conversas| == |before|
      invariant forall k :: 0 <= k < i ==> db.conversas[k] == MarkRead(before, contaId, contato)[k]
      invariant forall k :: i <= k < |before| ==> db.conversas[k] == before[k]
    {
      var c := db.conversas[i];
      if c.contaId == contaId && c.contato == contato && !c.lido {
        db.conversas := db.conversas[i := c.(lido := true)];
      }
      i := i + 1;
    }
  }

  /** `get_historico_contato`: marks the conversation read and returns it sorted
      by time, or reports an error (500) and changes nothing when the database
      cannot be reached. */
  method OpenHistory(db: Store, env: Env, contaId: int, contato: string) returns (r: HistoryResult)
    modifies db`conversas
    ensures !env.dbUp ==> r == HistoryError && db.conversas == old(db.conversas)
    ensures env.dbUp ==>
              db.conversas == MarkRead(old(db.conversas), contaId, contato)
              && r == History(HistoryOf(db.conversas, contaId, contato))
  {
    if !env.dbUp {
      return HistoryError;
    }
    MarkThreadRead(db, contaId, contato);
    r := History(HistoryOf(db.conversas, contaId, contato));
  }

  /** Marking read touches only the rows of the opened conversation, and only
      their `lido` flag. */
  lemma MarkReadChangesOnlyLido(rows: seq<Conversa>, contaId: int, contato: string)
    ensures |MarkRead(rows, contaId, contato)| == |rows|
    ensures forall i :: 0 <= i < |rows| ==>
              var m := MarkRead(rows, contaId, contato)[i];
              m.(lido := rows[i].lido) == rows[i]
              && (InThread(rows[i], contaId, contato) ==> m.lido)
              && (!InThread(rows[i], contaId, contato) ==> m == rows[i])
  {
  }

  /** The other conversations read exactly as before. */
  lemma {:induction false} MarkReadKeepsOtherThreads(rows: seq<Conversa>, contaId: int, contato: string,
                                                     otherConta: int, otherContato: string)
    requires otherConta != contaId || otherContato != contato
    ensures Thread(MarkRead(rows, contaId, contato), otherConta, otherContato) == Thread(rows, otherConta, otherContato)
  {
    if rows != [] {
      var n := |rows| - 1;
      assert MarkRead(rows, contaId, contato)[..n] == MarkRead(rows[..n], contaId, contato);
      MarkReadKeepsOtherThreads(rows[..n], contaId, contato, otherConta, otherContato);
    }
  }

  /** Reading a conversation never changes which reply the bot sent last. */
  lemma {:induction false} MarkReadKeepsLatest(rows: seq<Conversa>, contaId: int, contato: string,
                                               otherConta: int, otherContato: string)
    ensures var l := Latest(MarkRead(rows, contaId, contato), otherConta, otherContato);
            var l0 := Latest(rows, otherConta, otherContato);
            && l.None? == l0.None?
            && (l.Some? ==> l.value.respostaBot == l0.value.respostaBot && l.value.dataHora == l0.value.dataHora)
  {
    if rows != [] {
      var n := |rows| - 1;
      assert MarkRead(rows, contaId, contato)[..n] == MarkRead(rows[..n], contaId, contato);
      MarkReadKeepsLatest(rows[..n], contaId, contato, otherConta, otherContato);
    }
  }

  /** The returned history is exactly the conversation's rows, every one of them
      read, in ascending order of time. */
  lemma HistoryIsTheReadThread(rows: seq<Conversa>, contaId: int, contato: string)
    ensures var h := HistoryOf(MarkRead(rows, contaId, contato), contaId, contato);
            && multiset(h) == multiset(Thread(MarkRead(rows, contaId, contato), contaId, contato))
            && (forall i, j :: 0 <= i < j < |h| ==> h[i].dataHora <= h[j].dataHora)
            && (forall i :: 0 <= i < |h| ==> InThread(h[i], contaId, contato) && h[i].lido)
            && |h| == |Thread(rows, contaId, contato)|
  {
    var m := MarkRead(rows, contaId, contato);
    var t := Thread(m, contaId, contato);
    var h := HistoryOf(m, contaId, contato);
    forall i | 0 <= i < |h|
      ensures InThread(h[i], contaId, contato) && h[i].lido
    {
      SortByMembers(t, (c: Conversa) => c.dataHora, h[i]);
      var k :| 0 <= k < |m| && m[k] == h[i];
    }
    ThreadLengthAfterMarkRead(rows, contaId, contato);
  }

  lemma {:induction false} ThreadLengthAfterMarkRead(rows: seq<Conversa>, contaId: int, contato: string)
    ensures |Thread(MarkRead(rows, contaId, contato), contaId, contato)| == |Thread(rows, contaId, contato)|
  {
    if rows != [] {
      var n := |rows| - 1;
      assert MarkRead(rows, contaId, contato)[..n] == MarkRead(rows[..n], contaId, contato);
      ThreadLengthAfterMarkRead(rows[..n], contaId, contato);
    }
  }

  // ---------------------------------------------------------------------------
  // responder_cliente
  // ---------------------------------------------------------------------------

  /** The sales after `UPDATE vendas SET modo_atendimento = 'manual'` on the open
      sales of one customer. */
  function SetManual(vendas: seq<Venda>, contaId: int, contato: string): seq<Venda>
  {
    seq(|vendas|, i requires 0 <= i < |vendas| =>
      if Webhook.IsOpenSaleOf(vendas[i], contato, contaId) then vendas[i].(modoAtendimento := Some(Manual))
      else vendas[i])
  }

  /** Switches the open sales of one customer to manual service, one row at a time. */
  method SetManualMode(db: Store, contaId: int, contato: string)
    modifies db`vendas
    ensures db.vendas == SetManual(old(db.vendas), contaId, contato)
  {
    ghost var before := db.vendas;
    for i := 0 to |db.vendas|
      invariant |db.vendas| == |before|
      invariant forall k :: 0 <= k < i ==> db.vendas[k] == SetManual(before, contaId, contato)[k]
      invariant forall k :: i <= k < |before| ==> db.vendas[k] == before[k]
    {
      var v := db.vendas[i];
      if v.contaId == contaId && v.clienteId == contato && v.status == "aberto" {
        db.vendas := db.vendas[i := v.(modoAtendimento := Some(Manual))];
      }
    }
  }

  /** The text was accepted by the gateway: the request is complete, the sending
      number is configured and the send went through. */
  predicate ReplySent(contas: seq<Conta>, env: Env, contaId: int, contato: Option<string>, mensagem: Option<string>)
  {
    Truthy(contato) && Truthy(mensagem) && Truthy(env.twilioWhatsappNumber)
    && TextStatus(contas, env, Some(contaId)) == Sent
  }

  /** The HTTP status `responder_cliente` answers with. */
  function ReplyCode(contas: seq<Conta>, env: Env, contaId: int, contato: Option<string>, mensagem: Option<string>): (code: int)
    ensures code == 400 <==> !Truthy(contato) || !Truthy(mensagem)
    ensures code == 200 <==> ReplySent(contas, env, contaId, contato, mensagem) && env.dbUp
    ensures code in {200, 400, 500}
  {
    if !Truthy(contato) || !Truthy(mensagem) then 400
    else if !Truthy(env.twilioWhatsappNumber) then 500
    else if TextStatus(contas, env, Some(contaId)) != Sent then 500
    else if !env.dbUp then 500
    else 200
  }

  /** `responder_cliente`: validates the request, sends the text, logs it as an
      attendant reply and switches the customer's open sales to manual. */
  method PanelReply(db: Store, env: Env, contaId: int, contato: Option<string>, mensagem: Option<string>, now: int)
    returns (code: int)
    modifies db`outbox, db`conversas, db`vendas
    ensures code == ReplyCode(db.contas, env, contaId, contato, mensagem)
    ensures db.outbox == old(db.outbox) +
      if ReplySent(db.contas, env, contaId, contato, mensagem)
      then [OutMsg(contato.value, env.twilioWhatsappNumber, mensagem.value)] else []
    ensures db.conversas == old(db.conversas) +
      if ReplySent(db.contas, env, contaId, contato, mensagem) && env.dbUp
      then [Conversa(contaId, contato.value, PanelMarker, AttendantPrefix + mensagem.value, now, false)] else []
    ensures db.vendas == if code == 200 then SetManual(old(db.vendas), contaId, contato.value) else old(db.vendas)
  {
    if !Truthy(contato) || !Truthy(mensagem) {
      return 400;
    }
    var from := env.twilioWhatsappNumber;
    if !Truthy(from) {
      return 500;
    }
    var sent := SendText(db, env, contato.value, from.value, mensagem.value, Some(contaId));
    if sent != Sent {
      return 500;
    }
    SaveConversation(db, env, contaId, contato.value, PanelMarker, AttendantPrefix + mensagem.value, now);
    if !env.dbUp {
      return 500;
    }
    SetManualMode(db, contaId, contato.value);
    code := 200;
  }

  /** The switch touches only the customer's open sales, only their service mode,
      and adds no sale. */
  lemma SetManualChangesOnlyOpenSales(vendas: seq<Venda>, contaId: int, contato: string)
    ensures |SetManual(vendas, contaId, contato)| == |vendas|
    ensures forall i :: 0 <= i < |vendas| ==>
              var v := SetManual(vendas, contaId, contato)[i];
              v.(modoAtendimento := vendas[i].modoAtendimento) == vendas[i]
              && (Webhook.IsOpenSaleOf(vendas[i], contato, contaId) ==> v.modoAtendimento == Some(Manual))
              && (!Webhook.IsOpenSaleOf(vendas[i], contato, contaId) ==> v == vendas[i])
  {
  }

  /** After the switch, the open sale the webhook consults for that customer is in
      manual mode, and there is one exactly when there was one before. */
  lemma {:induction false} SetManualFirstOpen(vendas: seq<Venda>, contaId: int, contato: string)
    ensures var v := Webhook.FirstOpenVenda(SetManual(vendas, contaId, contato), contato, contaId);
            v.Some? == Webhook.FirstOpenVenda(vendas, contato, contaId).Some?
            && (v.Some? ==> v.value.modoAtendimento == Some(Manual))
  {
    if vendas != [] {
      assert SetManual(vendas, contaId, contato)[1..] == SetManual(vendas[1..], contaId, contato);
      SetManualFirstOpen(vendas[1..], contaId, contato);
    }
  }

  /** The hand-over: once an attendant has replied from the panel, the next
      message of that customer to the same store (with an open sale, past the
      test-mode filter: test mode off, or the developer's own number) is only
      logged, and the bot stays silent. */
  lemma HandoffSilencesBot(contas: seq<Conta>, vendas: seq<Venda>, produtos: seq<Product>, env: Env,
                           contaId: int, from: string, body: string, c: Webhook.Collaborators)
    requires env.dbUp && contaId != 0
    requires ContaIdFromNumber(contas, from, env.dbUp) == Some(contaId)
    requires !Webhook.TestMode(env) || env.developerWhatsappNumber == Some(from)
    requires RemoveAll(from, "whatsapp:") != [] && Strip(body) != []
    requires Webhook.FirstOpenVenda(vendas, RemoveAll(from, "whatsapp:"), contaId).Some?
    ensures var o := Webhook.Decide(contas, SetManual(vendas, contaId, RemoveAll(from, "whatsapp:")), produtos, env,
                                    Some(from), Some(body), c);
            o == Webhook.ManualMode(contaId, RemoveAll(from, "whatsapp:"), Strip(body))
            && Webhook.SendsOf(o, env) == []
  {
    SetManualFirstOpen(vendas, contaId, RemoveAll(from, "whatsapp:"));
  }

  /** Without an open sale the switch changes nothing: no sale is created and the
      bot keeps answering that customer. */
  lemma {:induction false} NoOpenSaleNoSwitch(vendas: seq<Venda>, contaId: int, contato: string)
    requires Webhook.FirstOpenVenda(vendas, contato, contaId).None?
    ensures SetManual(vendas, contaId, contato) == vendas
  {
    assert forall i :: 0 <= i < |vendas| ==> !Webhook.IsOpenSaleOf(vendas[i], contato, contaId);
  }

  // ---------------------------------------------------------------------------
  // listar_contatos
  // ---------------------------------------------------------------------------

  /** One line of the contact summary: a contact and the service status of an
      open sale, with its message count, latest time and unread count. */
  datatype Summary = Summary(contato: string, status: Option<string>, total: nat, ultima: int, naoLidas: nat)

  /** A log row paired with the service status the LEFT JOIN found for it. */
  datatype Joined = Joined(c: Conversa, status: Option<string>)

  /** The service statuses of the customer's open sales, in table order. */
  function OpenStatuses(vendas: seq<Venda>, contaId: int, contato: string): (r: seq<Option<string>>)
    ensures r == [] <==> forall i :: 0 <= i < |vendas| ==> !Webhook.IsOpenSaleOf(vendas[i], contato, contaId)
  {
    if vendas == [] then []
    else
      var last := vendas[|vendas| - 1];
      assert forall i :: 0 <= i < |vendas| - 1 ==> vendas[..|vendas| - 1][i] == vendas[i];
      OpenStatuses(vendas[..|vendas| - 1], contaId, contato)
      + if Webhook.IsOpenSaleOf(last, contato, contaId) then [last.statusAtendimento] else []
  }

  /** The joined rows of one log row: one per open sale, or one with no status. */
  function JoinOne(c: Conversa, statuses: seq<Option<string>>): seq<Joined>
  {
    if statuses == [] then [Joined(c, None)]
    else seq(|statuses|, i requires 0 <= i < |statuses| => Joined(c, statuses[i]))
  }

  /** `conversas LEFT JOIN vendas` restricted to the tenant's log. */
  function JoinRows(conversas: seq<Conversa>, vendas: seq<Venda>, contaId: int): seq<Joined>
  {
    if conversas == [] then []
    else
      var c := conversas[|conversas| - 1];
      JoinRows(conversas[..|conversas| - 1], vendas, contaId)
      + if c.contaId == contaId then JoinOne(c, OpenStatuses(vendas, contaId, c.contato)) else []
  }

  predicate InGroup(j: Joined, contato: string, status: Option<string>)
  {
    j.c.contato == contato && j.status == status
  }

  /** `COUNT(c.id)` of one group. */
  function Count(js: seq<Joined>, contato: string, status: Option<string>): nat
  {
    if js == [] then 0
    else Count(js[..|js| - 1], contato, status) + if InGroup(js[|js| - 1], contato, status) then 1 else 0
  }

  /** `SUM(CASE WHEN lido = FALSE ...)` of one group. */
  function Unread(js: seq<Joined>, contato: string, status: Option<string>): nat
  {
    if js == [] then 0
    else Unread(js[..|js| - 1], contato, status)
         + if InGroup(js[|js| - 1], contato, status) && !js[|js| - 1].c.lido then 1 else 0
  }

  function Max(a: int, b: int): int
  {
    if a >= b then a else b
  }

  /** `MAX(c.data_hora)` of one group; `None` for an empty group. */
  function MaxTime(js: seq<Joined>, contato: string, status: Option<string>): Option<int>
  {
    if js == [] then None
    else
      var prev := MaxTime(js[..|js| - 1], contato, status);
      var t := js[|js| - 1].c.dataHora;
      if !InGroup(js[|js| - 1], contato, status) then prev
      else Some(if prev.None? then t else Max(prev.value, t))
  }

  /** The position of the group with this key. */
  function FindGroup(gs: seq<Summary>, contato: string, status: Option<string>): (r: Option<nat>)
    ensures r.Some? ==> r.value < |gs| && gs[r.value].contato == contato && gs[r.value].status == status
    ensures r.None? ==> forall i :: 0 <= i < |gs| ==> !(gs[i].contato == contato && gs[i].status == status)
  {
    if gs == [] then None
    else if gs[0].contato == contato && gs[0].status == status then Some(0)
    else
      var r := FindGroup(gs[1..], contato, status);
      if r.Some? then Some(r.value + 1) else None
  }

  /** Folds one joined row into the groups. */
  function AddRow(gs: seq<Summary>, j: Joined): seq<Summary>
  {
    var unread := if j.c.lido then 0 else 1;
    var f := FindGroup(gs, j.c.contato, j.status);
    if f.Some? then
      var g := gs[f.value];
      gs[f.value := Summary(g.contato, g.status, g.total + 1, Max(g.ultima, j.c.dataHora), g.naoLidas + unread)]
    else gs + [Summary(j.c.contato, j.status, 1, j.c.dataHora, unread)]
  }

  /** `GROUP BY c.contato, v.status_atendimento`, groups in order of first row. */
  function Group(js: seq<Joined>): seq<Summary>
  {
    if js == [] then [] else AddRow(Group(js[..|js| - 1]), js[|js| - 1])
  }

  predicate KeysUnique(gs: seq<Summary>)
  {
    forall i, j :: 0 <= i < j < |gs| ==> !(gs[i].contato == gs[j].contato && gs[i].status == gs[j].status)
  }

  /** Each group carries its count, unread count and latest time. */
  predicate Tallies(gs: seq<Summary>, js: seq<Joined>)
  {
    forall i :: 0 <= i < |gs| ==>
      && gs[i].total == Count(js, gs[i].contato, gs[i].status)
      && gs[i].naoLidas == Unread(js, gs[i].contato, gs[i].status)
      && MaxTime(js, gs[i].contato, gs[i].status) == Some(gs[i].ultima)
  }

  /** Every key with a row has a group. */
  ghost predicate Covers(gs: seq<Summary>, js: seq<Joined>)
  {
    forall contato, status :: Count(js, contato, status) > 0 ==> FindGroup(gs, contato, status).Some?
  }

  /** An empty group has no unread rows and no latest time. */
  lemma {:induction false} EmptyGroup(js: seq<Joined>, contato: string, status: Option<string>)
    requires Count(js, contato, status) == 0
    ensures Unread(js, contato, status) == 0 && MaxTime(js, contato, status).None?
  {
    if js != [] {
      EmptyGroup(js[..|js| - 1], contato, status);
    }
  }

  /** A row whose key already has a group updates that group only. */
  lemma GroupStepFound(gs: seq<Summary>, init: seq<Joined>, j: Joined)
    requires KeysUnique(gs) && Tallies(gs, init) && Covers(gs, init)
    requires FindGroup(gs, j.c.contato, j.status).Some?
    ensures var js := init + [j];
            KeysUnique(AddRow(gs, j)) && Tallies(AddRow(gs, j), js) && Covers(AddRow(gs, j), js)
  {
    var js := init + [j];
    assert js[..|js| - 1] == init;
    var p := FindGroup(gs, j.c.contato, j.status).value;
    var gs' := AddRow(gs, j);
    assert |gs'| == |gs| && forall i :: 0 <= i < |gs| ==> gs'[i].contato == gs[i].contato && gs'[i].status == gs[i].status;
    FoundTallies(gs, init, j);
    forall contato, status | Count(js, contato, status) > 0
      ensures FindGroup(gs', contato, status).Some?
    {
      if !InGroup(j, contato, status) {
        var q := FindGroup(gs, contato, status).value;
        assert gs'[q].contato == contato && gs'[q].status == status;
      } else {
        assert gs'[p].contato == contato && gs'[p].status == status;
      }
    }
  }

  /** The updated group counts the new row; the others are unchanged. */
  lemma FoundTallies(gs: seq<Summary>, init: seq<Joined>, j: Joined)
    requires KeysUnique(gs) && Tallies(gs, init)
    requires FindGroup(gs, j.c.contato, j.status).Some?
    ensures Tallies(AddRow(gs, j), init + [j])
  {
    var js := init + [j];
    assert js[..|js| - 1] == init;
    var p := FindGroup(gs, j.c.contato, j.status).value;
    var gs' := AddRow(gs, j);
    forall i | 0 <= i < |gs'|
      ensures gs'[i].total == Count(js, gs'[i].contato, gs'[i].status)
      ensures gs'[i].naoLidas == Unread(js, gs'[i].contato, gs'[i].status)
      ensures MaxTime(js, gs'[i].contato, gs'[i].status) == Some(gs'[i].ultima)
    {
      if i != p {
        assert gs'[i] == gs[i];
        assert !InGroup(j, gs[i].contato, gs[i].status);
      }
    }
  }

  /** A row with a new key opens a group at the end. */
  lemma GroupStepNew(gs: seq<Summary>, init: seq<Joined>, j: Joined)
    requires KeysUnique(gs) && Tallies(gs, init) && Covers(gs, init)
    requires FindGroup(gs, j.c.contato, j.status).None?
    ensures var js := init + [j];
            KeysUnique(AddRow(gs, j)) && Tallies(AddRow(gs, j), js) && Covers(AddRow(gs, j), js)
  {
    var js := init + [j];
    assert js[..|js| - 1] == init;
    assert Count(init, j.c.contato, j.status) == 0;
    EmptyGroup(init, j.c.contato, j.status);
    var gs' := AddRow(gs, j);
    forall contato, status | Count(js, contato, status) > 0
      ensures FindGroup(gs', contato, status).Some?
    {
      if !InGroup(j, contato, status) {
        var q := FindGroup(gs, contato, status).value;
        assert gs'[q].contato == contato && gs'[q].status == status;
      } else {
        assert gs'[|gs|].contato == contato && gs'[|gs|].status == status;
      }
    }
  }

  /** The grouping is a correct `GROUP BY`: one group per key that occurs, each
      with the right count, unread count and latest time. */
  lemma {:induction false} GroupCorrect(js: seq<Joined>)
    ensures KeysUnique(Group(js)) && Tallies(Group(js), js) && Covers(Group(js), js)
  {
    if js != [] {
      var init := js[..|js| - 1];
      var j := js[|js| - 1];
      assert js == init + [j];
      GroupCorrect(init);
      if FindGroup(Group(init), j.c.contato, j.status).Some? {
        GroupStepFound(Group(init), init, j);
      } else {
        GroupStepNew(Group(init), init, j);
      }
    }
  }

  /** What `listar_contatos` renders, or the failure of the request: the
      connection is opened before the `try`, so a database that cannot be
      reached raises out of the route (an HTTP 500) instead of showing a page. */
  datatype SummaryResult = Summaries(groups: seq<Summary>) | SummaryError

  /** `listar_contatos`: the groups of the tenant's log, latest first. */
  function ContactSummaries(conversas: seq<Conversa>, vendas: seq<Venda>, contaId: int, dbUp: bool): SummaryResult
  {
    if !dbUp then SummaryError
    else Summaries(SortBy(Group(JoinRows(conversas, vendas, contaId)), (g: Summary) => -g.ultima))
  }

  /** The request fails exactly when the database cannot be reached; otherwise
      the summary lists each (contact, status) group of the tenant's joined log
      once, with its tallies, ordered by latest message, newest first. */
  lemma ContactSummariesCorrect(conversas: seq<Conversa>, vendas: seq<Venda>, contaId: int, dbUp: bool)
    ensures ContactSummaries(conversas, vendas, contaId, dbUp).SummaryError? <==> !dbUp
    ensures var res := ContactSummaries(conversas, vendas, contaId, dbUp);
            var js := JoinRows(conversas, vendas, contaId);
            res.Summaries? ==>
            var r := res.groups;
            && (forall i, j :: 0 <= i < j < |r| ==> r[i].ultima >= r[j].ultima)
            && (forall g :: g in r ==>
                  && g.total == Count(js, g.contato, g.status)
                  && g.naoLidas == Unread(js, g.contato, g.status)
                  && MaxTime(js, g.contato, g.status) == Some(g.ultima))
            && multiset(r) == multiset(Group(js)) && KeysUnique(Group(js))
            && (forall contato, status :: Count(js, contato, status) > 0 ==>
                  exists g :: g in r && g.contato == contato && g.status == status)
  {
    var js := JoinRows(conversas, vendas, contaId);
    var gs := Group(js);
    GroupCorrect(js);
    if dbUp {
      var key := (g: Summary) => -g.ultima;
      var r := SortBy(gs, key);
      assert SortedBy(r, key);
      forall i, j | 0 <= i < j < |r|
        ensures r[i].ultima >= r[j].ultima
      {
        assert key(r[i]) <= key(r[j]);
      }
      forall g | g in r
        ensures g.total == Count(js, g.contato, g.status)
        ensures g.naoLidas == Unread(js, g.contato, g.status)
        ensures MaxTime(js, g.contato, g.status) == Some(g.ultima)
      {
        SortByMembers(gs, key, g);
        var k :| 0 <= k < |gs| && gs[k] == g;
      }
      forall contato, status | Count(js, contato, status) > 0
        ensures exists g :: g in r && g.contato == contato && g.status == status
      {
        var q := FindGroup(gs, contato, status).value;
        SortByMembers(gs, key, gs[q]);
      }
    }
  }

  /** Other tenants' log rows never reach the summary. */
  lemma OtherTenantsIgnored(conversas: seq<Conversa>, c: Conversa, vendas: seq<Venda>, contaId: int)
    requires c.contaId != contaId
    ensures JoinRows(conversas + [c], vendas, contaId) == JoinRows(conversas, vendas, contaId)
  {
    assert (conversas + [c])[..|conversas|] == conversas;
  }

  /** The unread rows of a sequence of log rows. */
  function UnreadRows(rows: seq<Conversa>): nat
  {
    if rows == [] then 0 else UnreadRows(rows[..|rows| - 1]) + if rows[|rows| - 1].lido then 0 else 1
  }

  lemma {:induction false} CountAppend(a: seq<Joined>, b: seq<Joined>, contato: string, status: Option<string>)
    ensures Count(a + b, contato, status) == Count(a, contato, status) + Count(b, contato, status)
    ensures Unread(a + b, contato, status) == Unread(a, contato, status) + Unread(b, contato, status)
  {
    if b == [] {
      assert a + b == a;
    } else {
      var n := |b| - 1;
      assert (a + b)[..|a + b| - 1] == a + b[..n];
      CountAppend(a, b[..n], contato, status);
    }
  }

  lemma {:induction false} CountOutside(b: seq<Joined>, contato: string, status: Option<string>)
    requires forall i :: 0 <= i < |b| ==> !InGroup(b[i], contato, status)
    ensures Count(b, contato, status) == 0 && Unread(b, contato, status) == 0
  {
    if b != [] {
      CountOutside(b[..|b| - 1], contato, status);
    }
  }

  /** For a contact with no open sale, the summary's group with no status counts
      exactly the messages of that conversation and its unread ones. */
  lemma {:induction false} CountsWithoutOpenSale(conversas: seq<Conversa>, vendas: seq<Venda>, contaId: int, contato: string)
    requires forall i :: 0 <= i < |vendas| ==> !Webhook.IsOpenSaleOf(vendas[i], contato, contaId)
    ensures Count(JoinRows(conversas, vendas, contaId), contato, None) == |Thread(conversas, contaId, contato)|
    ensures Unread(JoinRows(conversas, vendas, contaId), contato, None) == UnreadRows(Thread(conversas, contaId, contato))
  {
    if conversas != [] {
      var init := conversas[..|conversas| - 1];
      var c := conversas[|conversas| - 1];
      CountsWithoutOpenSale(init, vendas, contaId, contato);
      var extra := if c.contaId == contaId then JoinOne(c, OpenStatuses(vendas, contaId, c.contato)) else [];
      CountAppend(JoinRows(init, vendas, contaId), extra, contato, None);
      if InThread(c, contaId, contato) {
        assert extra == [Joined(c, None)];
        assert [Joined(c, None)][..0] == [];
        var t := Thread(init, contaId, contato);
        assert (t + [c])[..|t|] == t;
      } else {
        CountOutside(extra, contato, None);
      }
    }
  }
}
