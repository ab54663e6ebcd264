/** The bot training page: a tenant submits its public store data, its assistant
    settings and a list of frequently asked questions, and the page saves them
    as the tenant's single `configuracoes_bot` row. */
module Training {
  import opened Text
  import opened Database

  /** The submitted form: single-valued fields by name, plus the two repeated
      fields holding the FAQ questions and answers in page order. */
  datatype Form = Form(
    fields: map<string, string>,
    faqQuestions: seq<string>,
    faqAnswers: seq<string>)

  const NomeLojaPublicoKey := "nome_loja_publico"
  const HorarioFuncionamentoKey := "horario_funcionamento"
  const EnderecoKey := "endereco"
  const LinkGoogleMapsKey := "link_google_maps"
  const NomeAssistenteKey := "nome_assistente"
  const SaudacaoPersonalizadaKey := "saudacao_personalizada"
  const UsarEmojisKey := "usar_emojis"
  const DiretrizPrincipalPromptKey := "diretriz_principal_prompt"
  const ConhecimentoEspecificoKey := "conhecimento_especifico"

  /** `request.form.get(key)`: the submitted value, or nothing when the field is
      absent. */
  function Get(form: Form, key: string): Option<string>
  {
    if key in form.fields then Some(form.fields[key]) else None
  }

  // ---------------------------------------------------------------------------
  // The FAQ list
  // ---------------------------------------------------------------------------

  /** A question/answer pair is kept when neither side is blank. */
  predicate Keeps(q: string, a: string)
  {
    Strip(q) != [] && Strip(a) != []
  }

  function Min(a: nat, b: nat): nat
  {
    if a <= b then a else b
  }

  /** Pairs questions and answers by position, stopping at the shorter list, and
      keeps the non-blank pairs with their text as submitted. */
  function FaqList(qs: seq<string>, ans: seq<string>): (r: seq<FaqEntry>)
    ensures |r| <= Min(|qs|, |ans|)
    decreases |qs|
  {
    if qs == [] || ans == [] then []
    else
      var rest := FaqList(qs[1..], ans[1..]);
      if Keeps(qs[0], ans[0]) then [FaqEntry(qs[0], ans[0])] + rest else rest
  }

  /** The positions, below the shorter length, whose pair is kept. */
  function KeptPositions(qs: seq<string>, ans: seq<string>): (r: seq<int>)
    decreases |qs|
  {
    if qs == [] || ans == [] then []
    else
      var rest := Shift(KeptPositions(qs[1..], ans[1..]));
      if Keeps(qs[0], ans[0]) then [0] + rest else rest
  }

  function Shift(idx: seq<int>): (r: seq<int>)
    ensures |r| == |idx|
    ensures forall k :: 0 <= k < |idx| ==> r[k] == idx[k] + 1
  {
    seq(|idx|, k requires 0 <= k < |idx| => idx[k] + 1)
  }

  /** `r` lists the pairs of `qs` and `ans` at the positions `idx`, all below the
      shorter length. */
  predicate Picks(qs: seq<string>, ans: seq<string>, idx: seq<int>, r: seq<FaqEntry>)
  {
    && |idx| == |r|
    && forall k :: 0 <= k < |idx| ==>
         0 <= idx[k] < Min(|qs|, |ans|) && r[k] == FaqEntry(qs[idx[k]], ans[idx[k]])
  }

  predicate Increasing(idx: seq<int>)
  {
    forall k, l :: 0 <= k < l < |idx| ==> idx[k] < idx[l]
  }

  /** `idx` holds exactly the positions below the shorter length whose pair is
      kept. */
  predicate KeptExactly(qs: seq<string>, ans: seq<string>, idx: seq<int>)
  {
    forall i :: 0 <= i < Min(|qs|, |ans|) ==> (i in idx <==> Keeps(qs[i], ans[i]))
  }

  /** `r` is the subsequence of the positional pairs selected by `idx`, in order,
      and `idx` selects exactly the kept pairs. */
  predicate Selects(qs: seq<string>, ans: seq<string>, idx: seq<int>, r: seq<FaqEntry>)
  {
    Picks(qs, ans, idx, r) && Increasing(idx) && KeptExactly(qs, ans, idx)
  }

  /** The FAQ list is the subsequence of the positional pairs whose two sides are
      both non-blank: in input order, with nothing else and nothing missing. */
  lemma {:induction false} FaqListSelects(qs: seq<string>, ans: seq<string>)
    ensures Selects(qs, ans, KeptPositions(qs, ans), FaqList(qs, ans))
    decreases |qs|
  {
    if qs != [] && ans != [] {
      FaqListSelects(qs[1..], ans[1..]);
      var tidx, tr := KeptPositions(qs[1..], ans[1..]), FaqList(qs[1..], ans[1..]);
      if Keeps(qs[0], ans[0]) {
        SelectsKeep(qs, ans, tidx, tr);
      } else {
        SelectsDrop(qs, ans, tidx, tr);
      }
    }
  }

  /** Shifting positions by one moves membership by one. */
  lemma ShiftMembers(idx: seq<int>, i: int)
    ensures i in Shift(idx) <==> i - 1 in idx
  {
    var s := Shift(idx);
    if i in s {
      var k :| 0 <= k < |s| && s[k] == i;
      assert idx[k] == i - 1;
    }
    if i - 1 in idx {
      var k :| 0 <= k < |idx| && idx[k] == i - 1;
      assert s[k] == i;
    }
  }

  /** The membership part of `Selects` for the shifted tail positions. */
  lemma ShiftedKept(qs: seq<string>, ans: seq<string>, tidx: seq<int>, tr: seq<FaqEntry>)
    requires qs != [] && ans != []
    requires Selects(qs[1..], ans[1..], tidx, tr)
    ensures forall k :: 0 <= k < |tidx| ==>
      1 <= Shift(tidx)[k] < Min(|qs|, |ans|)
      && tr[k] == FaqEntry(qs[Shift(tidx)[k]], ans[Shift(tidx)[k]])
    ensures forall i :: 0 < i < Min(|qs|, |ans|) ==> (i in Shift(tidx) <==> Keeps(qs[i], ans[i]))
    ensures 0 !in Shift(tidx)
  {
    var sidx := Shift(tidx);
    forall i | 0 < i < Min(|qs|, |ans|)
      ensures i in sidx <==> Keeps(qs[i], ans[i])
    {
      ShiftMembers(tidx, i);
      assert qs[i] == qs[1..][i - 1] && ans[i] == ans[1..][i - 1];
    }
    ShiftMembers(tidx, 0);
    forall k | 0 <= k < |tidx|
      ensures tr[k] == FaqEntry(qs[sidx[k]], ans[sidx[k]])
    {
      assert qs[sidx[k]] == qs[1..][tidx[k]] && ans[sidx[k]] == ans[1..][tidx[k]];
    }
  }

  lemma SelectsDrop(qs: seq<string>, ans: seq<string>, tidx: seq<int>, tr: seq<FaqEntry>)
    requires qs != [] && ans != [] && !Keeps(qs[0], ans[0])
    requires Selects(qs[1..], ans[1..], tidx, tr)
    ensures Selects(qs, ans, Shift(tidx), tr)
  {
    ShiftedKept(qs, ans, tidx, tr);
  }

  lemma SelectsKeep(qs: seq<string>, ans: seq<string>, tidx: seq<int>, tr: seq<FaqEntry>)
    requires qs != [] && ans != [] && Keeps(qs[0], ans[0])
    requires Selects(qs[1..], ans[1..], tidx, tr)
    ensures Selects(qs, ans, [0] + Shift(tidx), [FaqEntry(qs[0], ans[0])] + tr)
  {
    ShiftedKept(qs, ans, tidx, tr);
    KeepPicks(qs, ans, tidx, tr);
    KeepIncreasing(tidx);
    KeepExactly(qs, ans, tidx);
  }

  lemma KeepPicks(qs: seq<string>, ans: seq<string>, tidx: seq<int>, tr: seq<FaqEntry>)
    requires qs != [] && ans != [] && |tidx| == |tr|
    requires forall k :: 0 <= k < |tidx| ==>
      1 <= Shift(tidx)[k] < Min(|qs|, |ans|)
      && tr[k] == FaqEntry(qs[Shift(tidx)[k]], ans[Shift(tidx)[k]])
    ensures Picks(qs, ans, [0] + Shift(tidx), [FaqEntry(qs[0], ans[0])] + tr)
  {
    var sidx := Shift(tidx);
    var idx, r := [0] + sidx, [FaqEntry(qs[0], ans[0])] + tr;
    assert forall k :: 0 < k < |idx| ==> idx[k] == sidx[k - 1] && r[k] == tr[k - 1];
  }

  lemma KeepIncreasing(tidx: seq<int>)
    requires Increasing(tidx)
    requires forall k :: 0 <= k < |tidx| ==> 0 <= tidx[k]
    ensures Increasing([0] + Shift(tidx))
  {
    var idx := [0] + Shift(tidx);
    forall k, l | 0 <= k < l < |idx|
      ensures idx[k] < idx[l]
    {
      assert idx[l] == tidx[l - 1] + 1;
      if 0 < k {
        assert idx[k] == tidx[k - 1] + 1;
      }
    }
  }

  lemma KeepExactly(qs: seq<string>, ans: seq<string>, tidx: seq<int>)
    requires qs != [] && ans != [] && Keeps(qs[0], ans[0])
    requires forall i :: 0 < i < Min(|qs|, |ans|) ==> (i in Shift(tidx) <==> Keeps(qs[i], ans[i]))
    ensures KeptExactly(qs, ans, [0] + Shift(tidx))
  {
    var idx := [0] + Shift(tidx);
    forall i | 0 <= i < Min(|qs|, |ans|)
      ensures i in idx <==> Keeps(qs[i], ans[i])
    {
      if i > 0 { assert i in idx <==> i in Shift(tidx); }
    }
  }

  /** An entry is in the FAQ list exactly when its question and answer were
      submitted at the same position and neither is blank. */
  lemma FaqListMembers(qs: seq<string>, ans: seq<string>, e: FaqEntry)
    ensures e in FaqList(qs, ans) <==>
      exists i :: 0 <= i < Min(|qs|, |ans|) && qs[i] == e.question && ans[i] == e.answer
        && Keeps(e.question, e.answer)
  {
    var idx, r := KeptPositions(qs, ans), FaqList(qs, ans);
    FaqListSelects(qs, ans);
    if e in r {
      var k :| 0 <= k < |r| && r[k] == e;
      assert qs[idx[k]] == e.question && ans[idx[k]] == e.answer;
      assert idx[k] in idx;
    }
    if exists i :: 0 <= i < Min(|qs|, |ans|) && qs[i] == e.question && ans[i] == e.answer
        && Keeps(e.question, e.answer) {
      var i :| 0 <= i < Min(|qs|, |ans|) && qs[i] == e.question && ans[i] == e.answer
        && Keeps(e.question, e.answer);
      assert i in idx;
      var k :| 0 <= k < |idx| && idx[k] == i;
      assert r[k] == e;
    }
  }

  // ---------------------------------------------------------------------------
  // Saving the configuration
  // ---------------------------------------------------------------------------

  /** The row the page writes for `contaId` at time `now`. */
  function ConfigFromForm(contaId: int, form: Form, now: int): BotConfigRow
  {
    BotConfigRow(
      contaId,
      Get(form, NomeLojaPublicoKey),
      Get(form, HorarioFuncionamentoKey),
      Get(form, EnderecoKey),
      Get(form, LinkGoogleMapsKey),
      Get(form, NomeAssistenteKey),
      Get(form, SaudacaoPersonalizadaKey),
      UsarEmojisKey in form.fields,
      FaqList(form.faqQuestions, form.faqAnswers),
      Get(form, DiretrizPrincipalPromptKey),
      Get(form, ConhecimentoEspecificoKey),
      now)
  }

  /** No two rows belong to the same tenant (the table's key on `conta_id`). */
  predicate UniqueTenants(rows: seq<BotConfigRow>)
  {
    forall i, j :: 0 <= i < j < |rows| ==> rows[i].contaId != rows[j].contaId
  }

  /** The rows of tenant `c`, in table order. */
  function RowsOf(rows: seq<BotConfigRow>, c: int): (r: seq<BotConfigRow>)
    ensures |r| <= |rows|
  {
    if rows == [] then []
    else if rows[0].contaId == c then [rows[0]] + RowsOf(rows[1..], c)
    else RowsOf(rows[1..], c)
  }

  /** The rows of every tenant other than `c`, in table order. */
  function OtherRows(rows: seq<BotConfigRow>, c: int): (r: seq<BotConfigRow>)
    ensures |r| <= |rows|
  {
    if rows == [] then []
    else if rows[0].contaId != c then [rows[0]] + OtherRows(rows[1..], c)
    else OtherRows(rows[1..], c)
  }

  lemma {:induction false} RowsOfAppend(a: seq<BotConfigRow>, b: seq<BotConfigRow>, c: int)
    ensures RowsOf(a + b, c) == RowsOf(a, c) + RowsOf(b, c)
    decreases |a|
  {
    if a == [] {
      assert a + b == b;
    } else {
      assert (a + b)[0] == a[0] && (a + b)[1..] == a[1..] + b;
      RowsOfAppend(a[1..], b, c);
    }
  }

  lemma {:induction false} OtherRowsAppend(a: seq<BotConfigRow>, b: seq<BotConfigRow>, c: int)
    ensures OtherRows(a + b, c) == OtherRows(a, c) + OtherRows(b, c)
    decreases |a|
  {
    if a == [] {
      assert a + b == b;
    } else {
      assert (a + b)[0] == a[0] && (a + b)[1..] == a[1..] + b;
      OtherRowsAppend(a[1..], b, c);
    }
  }

  lemma {:induction false} NoRowsOf(rows: seq<BotConfigRow>, c: int)
    requires forall j :: 0 <= j < |rows| ==> rows[j].contaId != c
    ensures RowsOf(rows, c) == []
    ensures OtherRows(rows, c) == rows
    decreases |rows|
  {
    if rows != [] {
      NoRowsOf(rows[1..], c);
    }
  }

  /** The position of tenant `c`'s first row, or -1 when it has none. */
  function FindConfig(rows: seq<BotConfigRow>, c: int): (i: int)
    ensures -1 <= i < |rows|
    ensures 0 <= i ==> rows[i].contaId == c
    ensures forall j :: 0 <= j < |rows| && (i < 0 || j < i) ==> rows[j].contaId != c
    decreases |rows|
  {
    if rows == [] then -1
    else if rows[0].contaId == c then 0
    else
      var i := FindConfig(rows[1..], c);
      if i < 0 then -1 else i + 1
  }

  /** `INSERT ... ON CONFLICT (conta_id) DO UPDATE`: the tenant's row is replaced
      where it stands, or the row is added when the tenant has none. */
  function Upsert(rows: seq<BotConfigRow>, row: BotConfigRow): (r: seq<BotConfigRow>)
    ensures row in r
  {
    var i := FindConfig(rows, row.contaId);
    if 0 <= i then
      assert rows[i := row][i] == row;
      rows[i := row]
    else
      assert (rows + [row])[|rows|] == row;
      rows + [row]
  }

  /** After an upsert the tenant has exactly one row, the submitted one; every
      other tenant's rows are as they were, in the same order; and the table
      still has at most one row per tenant. */
  lemma UpsertCorrect(rows: seq<BotConfigRow>, row: BotConfigRow)
    requires UniqueTenants(rows)
    ensures RowsOf(Upsert(rows, row), row.contaId) == [row]
    ensures OtherRows(Upsert(rows, row), row.contaId) == OtherRows(rows, row.contaId)
    ensures UniqueTenants(Upsert(rows, row))
  {
    var c := row.contaId;
    var i := FindConfig(rows, c);
    if 0 <= i {
      UpsertReplaces(rows, row, i);
    } else {
      NoRowsOf(rows, c);
      RowsOfAppend(rows, [row], c);
      OtherRowsAppend(rows, [row], c);
      assert [row][1..] == [];
    }
  }

  /** The replacing half of `UpsertCorrect`. */
  lemma UpsertReplaces(rows: seq<BotConfigRow>, row: BotConfigRow, i: int)
    requires UniqueTenants(rows)
    requires i == FindConfig(rows, row.contaId) && 0 <= i
    ensures RowsOf(rows[i := row], row.contaId) == [row]
    ensures OtherRows(rows[i := row], row.contaId) == OtherRows(rows, row.contaId)
    ensures UniqueTenants(rows[i := row])
  {
    var c := row.contaId;
    var before, after := rows[..i], rows[i + 1..];
    assert rows == before + [rows[i]] + after;
    assert rows[i := row] == before + [row] + after;
    NoRowsOf(before, c);
    assert forall j :: 0 <= j < |after| ==> after[j] == rows[i + 1 + j];
    NoRowsOf(after, c);
    ReplaceMiddle(before, rows[i], row, after);
    ReplaceKeepsUnique(rows, row, i);
  }

  /** Swapping the only row of a tenant for another of the same tenant leaves
      it the only one and the other tenants' rows alone. */
  lemma ReplaceMiddle(before: seq<BotConfigRow>, prev: BotConfigRow, row: BotConfigRow, after: seq<BotConfigRow>)
    requires prev.contaId == row.contaId
    requires RowsOf(before, row.contaId) == [] && OtherRows(before, row.contaId) == before
    requires RowsOf(after, row.contaId) == [] && OtherRows(after, row.contaId) == after
    ensures RowsOf(before + [row] + after, row.contaId) == [row]
    ensures OtherRows(before + [row] + after, row.contaId) == OtherRows(before + [prev] + after, row.contaId)
  {
    var c := row.contaId;
    assert [prev][1..] == [] && [row][1..] == [];
    RowsOfAppend(before + [row], after, c);
    RowsOfAppend(before, [row], c);
    OtherRowsAppend(before + [prev], after, c);
    OtherRowsAppend(before, [prev], c);
    OtherRowsAppend(before + [row], after, c);
    OtherRowsAppend(before, [row], c);
  }

  /** Overwriting a tenant's row with a row of the same tenant keeps the
      tenants unique. */
  lemma ReplaceKeepsUnique(rows: seq<BotConfigRow>, row: BotConfigRow, i: int)
    requires UniqueTenants(rows)
    requires 0 <= i < |rows| && rows[i].contaId == row.contaId
    ensures UniqueTenants(rows[i := row])
  {
    var r := rows[i := row];
    forall j, k | 0 <= j < k < |r|
      ensures r[j].contaId != r[k].contaId
    {
      if j != i && k != i {
        assert r[j] == rows[j] && r[k] == rows[k];
      } else if j == i {
        assert r[k] == rows[k];
      } else {
        assert r[j] == rows[j];
      }
    }
  }

  /** The POST branch of the training page: builds the row from the form and
      upserts it. With the database unreachable the connection fails before
      anything is written. */
  method SaveTraining(db: Store, env: Env, contaId: int, form: Form, now: int)
    returns (saved: bool)
    modifies db`configuracoes
    ensures saved == env.dbUp
    ensures db.configuracoes ==
      if saved then Upsert(old(db.configuracoes), ConfigFromForm(contaId, form, now))
      else old(db.configuracoes)
  {
    if !env.dbUp {
      return false;
    }
    var faq := FaqList(form.faqQuestions, form.faqAnswers);
    var row := BotConfigRow(
      contaId,
      Get(form, NomeLojaPublicoKey),
      Get(form, HorarioFuncionamentoKey),
      Get(form, EnderecoKey),
      Get(form, LinkGoogleMapsKey),
      Get(form, NomeAssistenteKey),
      Get(form, SaudacaoPersonalizadaKey),
      UsarEmojisKey in form.fields,
      faq,
      Get(form, DiretrizPrincipalPromptKey),
      Get(form, ConhecimentoEspecificoKey),
      now);
    db.configuracoes := Upsert(db.configuracoes, row);
    saved := true;
  }

  /** A save leaves the tenant with exactly its submitted row, its FAQ holding the
      non-blank pairs, and every other tenant's configuration untouched. */
  lemma SaveKeepsOneRowPerTenant(rows: seq<BotConfigRow>, contaId: int, form: Form, now: int)
    requires UniqueTenants(rows)
    ensures var r := Upsert(rows, ConfigFromForm(contaId, form, now));
      && UniqueTenants(r)
      && RowsOf(r, contaId) == [ConfigFromForm(contaId, form, now)]
      && OtherRows(r, contaId) == OtherRows(rows, contaId)
      && |RowsOf(r, contaId)[0].faqConhecimento| <= Min(|form.faqQuestions|, |form.faqAnswers|)
  {
    UpsertCorrect(rows, ConfigFromForm(contaId, form, now));
  }
}
