/** The messaging helpers (utils/twilio_utils.py): the choice between a tenant's
    subaccount credentials and the master ones, plain text sends, and the reply
    button and list messages. The interactive variants serialise their payload
    with `json.dumps`, but `json` is never imported in that file, so building the
    request raises before anything reaches the gateway and the plain-text
    fallback is what is sent every time. */
module Twilio {
  import opened Text
  import opened Database

  datatype Button = Button(id: string, title: string)
  datatype Row = Row(id: string, title: string)
  /** A list section; `rows` is `None` when the section has no `rows` key. */
  datatype Section = Section(title: string, rows: Option<seq<Row>>)
  /** One entry of the `actions` payload of a reply-button message. */
  datatype Action = Action(kind: string, id: string, title: string)

  /** Why a send raised: missing credentials, more than three buttons, a badly
      shaped list, or a failure reported by the gateway. */
  datatype Failure = NoCredentials | TooManyButtons | InvalidSections | GatewayError
  datatype Status = Sent | Raised(failure: Failure)

  datatype Creds = Creds(sid: string, token: string)

  // ---------------------------------------------------------------------------
  // _get_twilio_client_for_account
  // ---------------------------------------------------------------------------

  /** The row `SELECT ... FROM contas WHERE id = conta_id` fetches. */
  function AccountRow(contas: seq<Conta>, id: int): (r: Option<Conta>)
    ensures r.None? <==> forall i :: 0 <= i < |contas| ==> contas[i].id != id
    ensures r.Some? ==> r.value in contas && r.value.id == id
  {
    if contas == [] then None
    else if contas[0].id == id then Some(contas[0])
    else AccountRow(contas[1..], id)
  }

  /** The subaccount credentials are used: the conta id is truthy, its row is
      read, and both stored values are non-empty. */
  predicate UsesSubaccount(contas: seq<Conta>, env: Env, contaId: Option<int>)
  {
    && contaId.Some? && contaId.value != 0 && env.dbUp
    && AccountRow(contas, contaId.value).Some?
    && Truthy(AccountRow(contas, contaId.value).value.subaccountSid)
    && Truthy(AccountRow(contas, contaId.value).value.authToken)
  }

  /** The credentials a client is built with, or `None` when the chosen ones are
      missing or empty and "Credenciais da Twilio não configuradas." is raised. */
  function ChooseCredentials(contas: seq<Conta>, env: Env, contaId: Option<int>): (r: Option<Creds>)
    ensures UsesSubaccount(contas, env, contaId) ==>
      var row := AccountRow(contas, contaId.value).value;
      r == Some(Creds(row.subaccountSid.value, row.authToken.value))
    ensures !UsesSubaccount(contas, env, contaId) ==>
      (r.Some? <==> Truthy(env.twilioAccountSid) && Truthy(env.twilioAuthToken))
      && (r.Some? ==> r.value == Creds(env.twilioAccountSid.value, env.twilioAuthToken.value))
  {
    var sid := env.twilioAccountSid;
    var token := env.twilioAuthToken;
    var (sid', token') :=
      if UsesSubaccount(contas, env, contaId) then
        var row := AccountRow(contas, contaId.value).value;
        (row.subaccountSid, row.authToken)
      else (sid, token);
    if Truthy(sid') && Truthy(token') then Some(Creds(sid'.value, token'.value)) else None
  }

  /** A database failure while reading the subaccount falls back to the master
      credentials, exactly as a conta without subaccount does. */
  lemma DatabaseFailureUsesMaster(contas: seq<Conta>, env: Env, contaId: Option<int>)
    requires !env.dbUp
    ensures ChooseCredentials(contas, env, contaId) == ChooseCredentials([], env, None)
  {
  }

  // ---------------------------------------------------------------------------
  // send_text
  // ---------------------------------------------------------------------------

  /** How a plain text send ends. */
  function TextStatus(contas: seq<Conta>, env: Env, contaId: Option<int>): Status
  {
    if ChooseCredentials(contas, env, contaId).None? then Raised(NoCredentials)
    else if !env.gatewayUp then Raised(GatewayError)
    else Sent
  }

  /** `send_text`: one message accepted by the gateway, or an exception and
      nothing sent. */
  method SendText(db: Store, env: Env, to: string, from: string, body: string, contaId: Option<int>)
    returns (r: Status)
    modifies db`outbox
    ensures r == TextStatus(db.contas, env, contaId)
    ensures db.outbox == old(db.outbox) + if r == Sent then [OutMsg(to, Some(from), body)] else []
  {
    var creds := ChooseCredentials(db.contas, env, contaId);
    if creds.None? {
      return Raised(NoCredentials);
    }
    if !env.gatewayUp {
      return Raised(GatewayError);
    }
    db.outbox := db.outbox + [OutMsg(to, Some(from), body)];
    r := Sent;
  }

  // ---------------------------------------------------------------------------
  // send_reply_buttons
  // ---------------------------------------------------------------------------

  /** The `actions` payload: one reply action per button, in order. */
  function ButtonActions(buttons: seq<Button>): seq<Action>
  {
    seq(|buttons|, i requires 0 <= i < |buttons| => Action("reply", buttons[i].id, buttons[i].title))
  }

  /** Builds the `actions` list one button at a time. */
  method BuildActions(buttons: seq<Button>) returns (actions: seq<Action>)
    ensures |actions| == |buttons|
    ensures forall i :: 0 <= i < |buttons| ==>
              actions[i].kind == "reply" && actions[i].id == buttons[i].id && actions[i].title == buttons[i].title
    ensures actions == ButtonActions(buttons)
  {
    actions := [];
    for i := 0 to |buttons|
      invariant |actions| == i
      invariant forall j :: 0 <= j < i ==> actions[j] == Action("reply", buttons[j].id, buttons[j].title)
    {
      actions := actions + [Action("reply", buttons[i].id, buttons[i].title)];
    }
  }

  /** One numbered line of the fallback text. */
  function ButtonLine(n: int, b: Button): string
  {
    IntToString(n) + ". " + b.title + "\n"
  }

  /** The numbered lines for the buttons, counting from `start`. */
  function ButtonLinesFrom(buttons: seq<Button>, start: int): string
  {
    if buttons == [] then ""
    else ButtonLine(start, buttons[0]) + ButtonLinesFrom(buttons[1..], start + 1)
  }

  /** Numbering continues across a concatenation of button lists. */
  lemma {:induction false} ButtonLinesFromAppend(a: seq<Button>, b: seq<Button>, start: int)
    ensures ButtonLinesFrom(a + b, start) == ButtonLinesFrom(a, start) + ButtonLinesFrom(b, start + |a|)
  {
    if a == [] {
      assert a + b == b;
    } else {
      assert (a + b)[0] == a[0] && (a + b)[1..] == a[1..] + b;
      ButtonLinesFromAppend(a[1..], b, start + 1);
      var line := ButtonLine(start, a[0]);
      var rest := ButtonLinesFrom(a[1..], start + 1);
      var tail := ButtonLinesFrom(b, start + |a|);
      assert ButtonLinesFrom(a + b, start) == line + (rest + tail);
      AppendAssoc(line, rest, tail);
    }
  }

  /** The plain-text version of a button message. */
  function ButtonsFallback(body: string, buttons: seq<Button>): string
  {
    body + "\n\n" + ButtonLinesFrom(buttons, 1)
  }

  /** Builds the fallback text with one `+=` per button. */
  method ButtonsFallbackText(body: string, buttons: seq<Button>) returns (text: string)
    ensures text == ButtonsFallback(body, buttons)
  {
    var lines := "";
    for i := 0 to |buttons|
      invariant lines == ButtonLinesFrom(buttons[..i], 1)
    {
      ButtonLinesFromAppend(buttons[..i], [buttons[i]], 1);
      assert buttons[..i + 1] == buttons[..i] + [buttons[i]];
      lines := lines + ButtonLine(i + 1, buttons[i]);
    }
    assert buttons[..|buttons|] == buttons;
    text := body + "\n\n" + lines;
  }

  /** How a reply-button send ends: the credentials are checked first, then the
      number of buttons, then the fallback text is sent. */
  function ButtonsStatus(contas: seq<Conta>, env: Env, contaId: Option<int>, buttons: seq<Button>): Status
  {
    if ChooseCredentials(contas, env, contaId).None? then Raised(NoCredentials)
    else if |buttons| > 3 then Raised(TooManyButtons)
    else TextStatus(contas, env, contaId)
  }

  /** The checks of a reply-button send come in source order: a missing
      credential is reported even for too many buttons, and more than three
      buttons are refused before anything is sent. */
  lemma ButtonsChecksInOrder(contas: seq<Conta>, env: Env, contaId: Option<int>, buttons: seq<Button>)
    ensures ChooseCredentials(contas, env, contaId).None? ==>
              ButtonsStatus(contas, env, contaId, buttons) == Raised(NoCredentials)
    ensures ButtonsStatus(contas, env, contaId, buttons) == Raised(TooManyButtons) <==>
              ChooseCredentials(contas, env, contaId).Some? && |buttons| > 3
    ensures ButtonsStatus(contas, env, contaId, buttons) == Sent <==>
              ChooseCredentials(contas, env, contaId).Some? && |buttons| <= 3 && env.gatewayUp
  {
  }

  /** `send_reply_buttons`. The interactive request is never made (its payload
      needs the unimported `json`), so the fallback text is sent. */
  method SendReplyButtons(db: Store, env: Env, to: string, from: string, body: string,
                          buttons: seq<Button>, contaId: Option<int>) returns (r: Status)
    modifies db`outbox
    ensures r == ButtonsStatus(db.contas, env, contaId, buttons)
    ensures db.outbox == old(db.outbox) + if r == Sent then [OutMsg(to, Some(from), ButtonsFallback(body, buttons))] else []
  {
    var creds := ChooseCredentials(db.contas, env, contaId);
    if creds.None? {
      return Raised(NoCredentials);
    }
    if |buttons| > 3 {
      return Raised(TooManyButtons);
    }
    var actions := BuildActions(buttons);
    var text := ButtonsFallbackText(body, buttons);
    r := SendText(db, env, to, from, text, contaId);
  }

  // ---------------------------------------------------------------------------
  // send_list_picker
  // ---------------------------------------------------------------------------

  /** The list structure is accepted: at least one section, each with rows. */
  predicate SectionsValid(sections: seq<Section>)
  {
    sections != [] && forall i :: 0 <= i < |sections| ==> sections[i].rows.Some?
  }

  function RowLines(rows: seq<Row>): string
  {
    if rows == [] then "" else RowLines(rows[..|rows| - 1]) + "- " + rows[|rows| - 1].title + "\n"
  }

  /** One section of the fallback: its title in bold, then one dash line per row. */
  function SectionText(s: Section): string
  {
    "*" + s.title + "*\n" + RowLines(if s.rows.Some? then s.rows.value else [])
  }

  function SectionLines(sections: seq<Section>): string
  {
    if sections == [] then ""
    else SectionLines(sections[..|sections| - 1]) + SectionText(sections[|sections| - 1])
  }

  /** The plain-text version of a list message. */
  function ListFallback(body: string, sections: seq<Section>): string
  {
    body + "\n\n" + SectionLines(sections)
  }

  lemma RowLinesStep(rows: seq<Row>, j: nat)
    requires j < |rows|
    ensures RowLines(rows[..j + 1]) == RowLines(rows[..j]) + "- " + rows[j].title + "\n"
  {
    assert rows[..j + 1][..j] == rows[..j];
  }

  lemma SectionLinesStep(sections: seq<Section>, i: nat)
    requires i < |sections|
    ensures SectionLines(sections[..i + 1]) == SectionLines(sections[..i]) + SectionText(sections[i])
  {
    assert sections[..i + 1][..i] == sections[..i];
  }

  /** Builds the list fallback with `+=`, section by section and row by row. */
  method ListFallbackText(body: string, sections: seq<Section>) returns (text: string)
    requires SectionsValid(sections)
    ensures text == ListFallback(body, sections)
  {
    var lines := "";
    for i := 0 to |sections|
      invariant lines == SectionLines(sections[..i])
    {
      var rows := sections[i].rows.value;
      var rowText := "";
      for j := 0 to |rows|
        invariant rowText == RowLines(rows[..j])
      {
        RowLinesStep(rows, j);
        rowText := rowText + "- " + rows[j].title + "\n";
      }
      assert rows[..|rows|] == rows;
      SectionLinesStep(sections, i);
      lines := lines + ("*" + sections[i].title + "*\n" + rowText);
    }
    assert sections[..|sections|] == sections;
    text := body + "\n\n" + lines;
  }

  /** How a list send ends: credentials first, then the structure check, then
      the fallback text is sent. */
  function ListStatus(contas: seq<Conta>, env: Env, contaId: Option<int>, sections: seq<Section>): Status
  {
    if ChooseCredentials(contas, env, contaId).None? then Raised(NoCredentials)
    else if !SectionsValid(sections) then Raised(InvalidSections)
    else TextStatus(contas, env, contaId)
  }

  /** An empty list, or a section without rows, is refused before anything is
      sent, once the credentials are found. */
  lemma ListChecks(contas: seq<Conta>, env: Env, contaId: Option<int>, sections: seq<Section>)
    ensures ListStatus(contas, env, contaId, sections) == Raised(InvalidSections) <==>
              ChooseCredentials(contas, env, contaId).Some?
              && (sections == [] || exists i :: 0 <= i < |sections| && sections[i].rows.None?)
    ensures ListStatus(contas, env, contaId, sections) == Sent ==> SectionsValid(sections)
  {
  }

  /** `send_list_picker`; the button text goes only into the interactive payload,
      which is never sent. */
  method SendListPicker(db: Store, env: Env, to: string, from: string, body: string,
                        buttonText: string, sections: seq<Section>, contaId: Option<int>) returns (r: Status)
    modifies db`outbox
    ensures r == ListStatus(db.contas, env, contaId, sections)
    ensures db.outbox == old(db.outbox) + if r == Sent then [OutMsg(to, Some(from), ListFallback(body, sections))] else []
  {
    var creds := ChooseCredentials(db.contas, env, contaId);
    if creds.None? {
      return Raised(NoCredentials);
    }
    if !SectionsValid(sections) {
      return Raised(InvalidSections);
    }
    var text := ListFallbackText(body, sections);
    r := SendText(db, env, to, from, text, contaId);
  }
}
