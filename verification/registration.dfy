/** The customer registration dialogue (utils/fluxo_atendimento.py). A phone in
    registration has a row in `clientes_fluxo` whose `etapa` says which answer is
    expected next: 'nome', then 'bairro'; the final answer moves the data into
    `clientes` and deletes the flow row. */
module Registration {
  import opened Text
  import opened Database

  const StartPrompt := "Vamos começar seu cadastro. Qual é o seu nome completo?"
  const AskBairro := "Ótimo! Agora me informe o seu bairro."
  const Registered := "Cadastro realizado com sucesso! Agora posso te ajudar com os produtos."
  const StageError := "Algo deu errado. Vamos tentar novamente digitando 'cadastro'."

  /** The flow rows left after `DELETE FROM clientes_fluxo WHERE telefone = numero`. */
  function WithoutPhone(rows: seq<FlowRow>, numero: string): (r: seq<FlowRow>)
    ensures |r| <= |rows|
  {
    if rows == [] then []
    else (if rows[0].telefone == numero then [] else [rows[0]]) + WithoutPhone(rows[1..], numero)
  }

  /** The DELETE keeps exactly the rows of the other phones. */
  lemma {:induction false} WithoutPhoneMembers(rows: seq<FlowRow>, numero: string, x: FlowRow)
    ensures x in WithoutPhone(rows, numero) <==> x in rows && x.telefone != numero
  {
    if rows != [] {
      WithoutPhoneMembers(rows[1..], numero, x);
      assert rows == [rows[0]] + rows[1..];
    }
  }

  /** The rows of one phone, in table order. */
  function RowsOf(rows: seq<FlowRow>, numero: string): seq<FlowRow>
  {
    if rows == [] then []
    else (if rows[0].telefone == numero then [rows[0]] else []) + RowsOf(rows[1..], numero)
  }

  /** The row `SELECT ... WHERE telefone = numero` fetches first. */
  function FirstFlow(rows: seq<FlowRow>, numero: string): (r: Option<FlowRow>)
    ensures r.None? <==> forall i :: 0 <= i < |rows| ==> rows[i].telefone != numero
    ensures r.Some? ==> r.value in rows && r.value.telefone == numero
  {
    if rows == [] then None
    else if rows[0].telefone == numero then Some(rows[0])
    else FirstFlow(rows[1..], numero)
  }

  /** One row after `UPDATE clientes_fluxo SET nome = mensagem, etapa = 'bairro'
      WHERE telefone = numero`. */
  function Named(row: FlowRow, numero: string, mensagem: string): FlowRow
  {
    if row.telefone == numero then row.(nome := Some(mensagem), etapa := "bairro") else row
  }

  /** Every row keeps its phone and its `bairro`; a row of `numero` gets the
      name and moves to 'bairro'; every other row stays as it was. */
  function SetName(rows: seq<FlowRow>, numero: string, mensagem: string): (r: seq<FlowRow>)
    ensures |r| == |rows|
    ensures forall i :: 0 <= i < |rows| ==> r[i].telefone == rows[i].telefone && r[i].bairro == rows[i].bairro
    ensures forall i :: 0 <= i < |rows| && rows[i].telefone == numero ==>
      r[i].nome == Some(mensagem) && r[i].etapa == "bairro"
    ensures forall i :: 0 <= i < |rows| && rows[i].telefone != numero ==> r[i] == rows[i]
  {
    seq(|rows|, i requires 0 <= i < |rows| => Named(rows[i], numero, mensagem))
  }

  /** At most one flow row per phone. */
  ghost predicate OneRowPerPhone(rows: seq<FlowRow>)
  {
    forall i, j :: 0 <= i < j < |rows| ==> rows[i].telefone != rows[j].telefone
  }

  /** The two tables the dialogue works on. */
  datatype Tables = Tables(flow: seq<FlowRow>, clientes: seq<Cliente>)

  /** `iniciar_cadastro` on the flow table: the phone's rows replaced by one row at
      stage 'nome'. */
  function Start(flow: seq<FlowRow>, numero: string): seq<FlowRow>
  {
    WithoutPhone(flow, numero) + [FlowRow(numero, "nome", None, None)]
  }

  /** `processar_cadastro`: the new tables and the reply. */
  function Process(t: Tables, numero: string, mensagem: string): (Tables, string)
  {
    match FirstFlow(t.flow, numero)
    case None => (Tables(Start(t.flow, numero), t.clientes), StartPrompt)
    case Some(row) =>
      if row.etapa == "nome" then
        (Tables(SetName(t.flow, numero, mensagem), t.clientes), AskBairro)
      else if row.etapa == "bairro" then
        (Tables(WithoutPhone(t.flow, numero), t.clientes + [Cliente(row.nome, numero, mensagem)]), Registered)
      else (t, StageError)
  }

  // ---------------------------------------------------------------------------
  // The imperative operations
  // ---------------------------------------------------------------------------

  lemma {:induction false} WithoutPhoneAppend(a: seq<FlowRow>, b: seq<FlowRow>, numero: string)
    ensures WithoutPhone(a + b, numero) == WithoutPhone(a, numero) + WithoutPhone(b, numero)
  {
    if a == [] {
      assert a + b == b;
    } else {
      assert (a + b)[1..] == a[1..] + b;
      WithoutPhoneAppend(a[1..], b, numero);
    }
  }

  /** The DELETE of every flow row of a phone. */
  method DeleteFlowRows(db: Store, numero: string)
    modifies db`clientesFluxo
    ensures db.clientesFluxo == WithoutPhone(old(db.clientesFluxo), numero)
  {
    var rows := db.clientesFluxo;
    var kept := [];
    var i := 0;
    while i < |rows|
      invariant 0 <= i <= |rows|
      invariant kept == WithoutPhone(rows[..i], numero)
    {
      assert rows[..i + 1] == rows[..i] + [rows[i]];
      WithoutPhoneAppend(rows[..i], [rows[i]], numero);
      if rows[i].telefone != numero {
        kept := kept + [rows[i]];
      }
      i := i + 1;
    }
    assert rows[..i] == rows;
    db.clientesFluxo := kept;
  }

  /** `iniciar_cadastro`: deletes the phone's flow rows, inserts one at stage
      'nome' and asks for the name. */
  method StartRegistration(db: Store, numero: string) returns (r: string)
    modifies db`clientesFluxo
    ensures db.clientesFluxo == Start(old(db.clientesFluxo), numero)
    ensures r == StartPrompt
  {
    DeleteFlowRows(db, numero);
    db.clientesFluxo := db.clientesFluxo + [FlowRow(numero, "nome", None, None)];
    r := StartPrompt;
  }

  /** `processar_cadastro`: one step of the dialogue, driven by the stored stage. */
  method ProcessRegistration(db: Store, numero: string, mensagem: string) returns (r: string)
    modifies db`clientesFluxo, db`clientes
    ensures (Tables(db.clientesFluxo, db.clientes), r)
         == Process(Tables(old(db.clientesFluxo), old(db.clientes)), numero, mensagem)
  {
    var row := FirstFlow(db.clientesFluxo, numero);
    if row.None? {
      r := StartRegistration(db, numero);
      return;
    }
    var etapa := row.value.etapa;
    if etapa == "nome" {
      ghost var before := db.clientesFluxo;
      var i := 0;
      while i < |db.clientesFluxo|
        invariant 0 <= i <= |db.clientesFluxo| == |before|
        invariant forall j :: 0 <= j < i ==> db.clientesFluxo[j] == Named(before[j], numero, mensagem)
        invariant forall j :: i <= j < |before| ==> db.clientesFluxo[j] == before[j]
        invariant db.clientes == old(db.clientes)
      {
        if db.clientesFluxo[i].telefone == numero {
          db.clientesFluxo := db.clientesFluxo[i := db.clientesFluxo[i].(nome := Some(mensagem), etapa := "bairro")];
        }
        i := i + 1;
      }
      assert db.clientesFluxo == SetName(before, numero, mensagem);
      r := AskBairro;
    } else if etapa == "bairro" {
      db.clientes := db.clientes + [Cliente(row.value.nome, numero, mensagem)];
      DeleteFlowRows(db, numero);
      r := Registered;
    } else {
      r := StageError;
    }
  }

  // ---------------------------------------------------------------------------
  // Properties of the dialogue
  // ---------------------------------------------------------------------------

  /** A phone with no flow row is answered exactly as `iniciar_cadastro` answers. */
  lemma NoRowStarts(t: Tables, numero: string, mensagem: string)
    requires forall i :: 0 <= i < |t.flow| ==> t.flow[i].telefone != numero
    ensures Process(t, numero, mensagem) == (Tables(Start(t.flow, numero), t.clientes), StartPrompt)
  {
  }

  /** A stored stage other than 'nome' or 'bairro' changes nothing. */
  lemma UnknownStageChangesNothing(t: Tables, numero: string, mensagem: string)
    requires FirstFlow(t.flow, numero).Some?
    requires FirstFlow(t.flow, numero).value.etapa != "nome" && FirstFlow(t.flow, numero).value.etapa != "bairro"
    ensures Process(t, numero, mensagem) == (t, StageError)
  {
  }

  lemma {:induction false} WithoutPhoneNoRow(rows: seq<FlowRow>, numero: string)
    requires forall i :: 0 <= i < |rows| ==> rows[i].telefone != numero
    ensures WithoutPhone(rows, numero) == rows
  {
    if rows != [] {
      WithoutPhoneNoRow(rows[1..], numero);
    }
  }

  lemma {:induction false} RowsOfAppend(a: seq<FlowRow>, b: seq<FlowRow>, numero: string)
    ensures RowsOf(a + b, numero) == RowsOf(a, numero) + RowsOf(b, numero)
  {
    if a == [] {
      assert a + b == b;
    } else {
      assert (a + b)[1..] == a[1..] + b;
      RowsOfAppend(a[1..], b, numero);
    }
  }

  lemma {:induction false} RowsOfWithout(rows: seq<FlowRow>, numero: string, other: string)
    requires other != numero
    ensures RowsOf(WithoutPhone(rows, numero), other) == RowsOf(rows, other)
  {
    if rows != [] {
      RowsOfWithout(rows[1..], numero, other);
      var head := if rows[0].telefone == numero then [] else [rows[0]];
      RowsOfAppend(head, WithoutPhone(rows[1..], numero), other);
    }
  }

  lemma {:induction false} RowsOfSetName(rows: seq<FlowRow>, numero: string, mensagem: string, other: string)
    requires other != numero
    ensures RowsOf(SetName(rows, numero, mensagem), other) == RowsOf(rows, other)
  {
    if rows != [] {
      assert SetName(rows, numero, mensagem)[1..] == SetName(rows[1..], numero, mensagem);
      RowsOfSetName(rows[1..], numero, mensagem, other);
    }
  }

  /** Every step leaves the flow rows of every other phone as they were, and adds
      to `clientes` at most one row, for the phone being served. */
  lemma ProcessTouchesOnlyItsPhone(t: Tables, numero: string, mensagem: string, other: string)
    requires other != numero
    ensures var (t', _) := Process(t, numero, mensagem);
      && RowsOf(t'.flow, other) == RowsOf(t.flow, other)
      && (t'.clientes == t.clientes
          || exists nome :: t'.clientes == t.clientes + [Cliente(nome, numero, mensagem)])
  {
    var (t', _) := Process(t, numero, mensagem);
    match FirstFlow(t.flow, numero)
    case None =>
      RowsOfAppend(WithoutPhone(t.flow, numero), [FlowRow(numero, "nome", None, None)], other);
      RowsOfWithout(t.flow, numero, other);
    case Some(row) =>
      if row.etapa == "nome" {
        RowsOfSetName(t.flow, numero, mensagem, other);
      } else if row.etapa == "bairro" {
        RowsOfWithout(t.flow, numero, other);
      }
  }

  /** Every step keeps "at most one flow row per phone". */
  lemma ProcessKeepsOneRowPerPhone(t: Tables, numero: string, mensagem: string)
    requires OneRowPerPhone(t.flow)
    ensures OneRowPerPhone(Process(t, numero, mensagem).0.flow)
  {
    match FirstFlow(t.flow, numero)
    case None =>
      var w := WithoutPhone(t.flow, numero);
      WithoutPhoneOneRow(t.flow, numero);
      var s := w + [FlowRow(numero, "nome", None, None)];
      forall i, j | 0 <= i < j < |s| ensures s[i].telefone != s[j].telefone {
        if j == |s| - 1 {
          assert s[i] in w;
          WithoutPhoneMembers(t.flow, numero, s[i]);
        }
      }
    case Some(row) =>
      if row.etapa == "bairro" {
        WithoutPhoneOneRow(t.flow, numero);
      }
  }

  lemma {:induction false} WithoutPhoneOneRow(rows: seq<FlowRow>, numero: string)
    requires OneRowPerPhone(rows)
    ensures OneRowPerPhone(WithoutPhone(rows, numero))
  {
    if rows != [] {
      WithoutPhoneOneRow(rows[1..], numero);
      var w := WithoutPhone(rows[1..], numero);
      if rows[0].telefone != numero {
        var s := [rows[0]] + w;
        forall i, j | 0 <= i < j < |s| ensures s[i].telefone != s[j].telefone {
          if i == 0 {
            assert s[j] in w;
            WithoutPhoneMembers(rows[1..], numero, s[j]);
            var k :| 0 <= k < |rows[1..]| && rows[1..][k] == s[j];
            assert rows[k + 1] == s[j];
          } else {
            assert s[i] == w[i - 1] && s[j] == w[j - 1];
          }
        }
      }
    }
  }

  lemma {:induction false} FirstFlowAfterNoRow(w: seq<FlowRow>, row: FlowRow, numero: string)
    requires forall i :: 0 <= i < |w| ==> w[i].telefone != numero
    requires row.telefone == numero
    ensures FirstFlow(w + [row], numero) == Some(row)
  {
    if w != [] {
      assert (w + [row])[1..] == w[1..] + [row];
      FirstFlowAfterNoRow(w[1..], row, numero);
    }
  }

  /** A phone with no flow row that sends any message, then its name, then its
      neighbourhood, ends up with exactly one new `clientes` row holding them, no
      flow row, and every other flow row as it was. */
  lemma RegistrationDialogue(t: Tables, numero: string, first: string, nome: string, bairro: string)
    requires forall i :: 0 <= i < |t.flow| ==> t.flow[i].telefone != numero
    ensures var (t1, r1) := Process(t, numero, first);
            var (t2, r2) := Process(t1, numero, nome);
            var (t3, r3) := Process(t2, numero, bairro);
            && r1 == StartPrompt && r2 == AskBairro && r3 == Registered
            && t3 == Tables(t.flow, t.clientes + [Cliente(Some(nome), numero, bairro)])
  {
    DialogueStart(t, numero, first);
    DialogueName(t.flow, t.clientes, numero, nome);
    DialogueBairro(t.flow, t.clientes, numero, nome, bairro);
  }

  /** First message: the phone gets a flow row at the name step. */
  lemma DialogueStart(t: Tables, numero: string, first: string)
    requires forall i :: 0 <= i < |t.flow| ==> t.flow[i].telefone != numero
    ensures Process(t, numero, first) == (Tables(t.flow + [FlowRow(numero, "nome", None, None)], t.clientes), StartPrompt)
  {
    WithoutPhoneNoRow(t.flow, numero);
  }

  /** Second message: the name is stored and the row moves to the neighbourhood step. */
  lemma DialogueName(flow: seq<FlowRow>, clientes: seq<Cliente>, numero: string, nome: string)
    requires forall i :: 0 <= i < |flow| ==> flow[i].telefone != numero
    ensures Process(Tables(flow + [FlowRow(numero, "nome", None, None)], clientes), numero, nome)
            == (Tables(flow + [FlowRow(numero, "bairro", Some(nome), None)], clientes), AskBairro)
  {
    var start := FlowRow(numero, "nome", None, None);
    FirstFlowAfterNoRow(flow, start, numero);
    assert SetName(flow + [start], numero, nome) == flow + [FlowRow(numero, "bairro", Some(nome), None)];
  }

  /** Third message: the customer is registered and the flow row removed. */
  lemma DialogueBairro(flow: seq<FlowRow>, clientes: seq<Cliente>, numero: string, nome: string, bairro: string)
    requires forall i :: 0 <= i < |flow| ==> flow[i].telefone != numero
    ensures Process(Tables(flow + [FlowRow(numero, "bairro", Some(nome), None)], clientes), numero, bairro)
            == (Tables(flow, clientes + [Cliente(Some(nome), numero, bairro)]), Registered)
  {
    var named := FlowRow(numero, "bairro", Some(nome), None);
    FirstFlowAfterNoRow(flow, named, numero);
    WithoutPhoneNoRow(flow, numero);
    WithoutPhoneAppend(flow, [named], numero);
    assert [named][1..] == [];
    assert WithoutPhone([named], numero) == [];
    assert WithoutPhone(flow + [named], numero) == flow;
  }
}
