/** What the webhook promises about its answers, proved of the model in
    module AlexaServer. */
module AlexaServerProperties {
  import opened Wrappers
  import opened PyText
  import opened AlexaServer

  // ---------------------------------------------------------------------------
  // Reading a spoken camera list back: the inverse of `" and ".join`.
  // ---------------------------------------------------------------------------

  /** The longest prefix of `s` without a space. */
  function Token(s: string): (t: string)
    ensures |t| <= |s|
  {
    if s == [] || s[0] == ' ' then [] else [s[0]] + Token(s[1..])
  }

  /** Reads "n1 and n2 and ... and nk" back into [n1, ..., nk]. */
  function ReadCameraList(s: string): Option<seq<int>>
    decreases |s|
  {
    var tok := Token(s);
    var rest := s[|tok|..];
    match ParseInt(tok)
    case None => None
    case Some(n) =>
      if rest == [] then Some([n])
      else if |rest| > 5 && rest[..5] == " and " then
        match ReadCameraList(rest[5..])
        case None => None
        case Some(ns) => Some([n] + ns)
      else None
  }

  /** Text mentions word `w` somewhere. */
  predicate Mentions(s: string, w: string) {
    exists i :: 0 <= i <= |s| && w <= s[i..]
  }

  lemma {:induction false} TokenOfPadded(x: string, t: string)
    requires ' ' !in x
    requires t == [] || t[0] == ' '
    ensures Token(x + t) == x
  {
    if x == [] {
      assert x + t == t;
    } else {
      assert (x + t)[0] == x[0];
      assert (x + t)[1..] == x[1..] + t;
      TokenOfPadded(x[1..], t);
    }
  }

  lemma NumberHasNoSpace(n: int)
    ensures ' ' !in IntToString(n)
  {
  }

  /** `CameraListText(cams)` starts with the first camera's number. */
  lemma CameraListTextHead(cams: seq<int>)
    requires cams != []
    ensures |cams| == 1 ==> CameraListText(cams) == IntToString(cams[0])
    ensures |cams| > 1 ==> CameraListText(cams) == IntToString(cams[0]) + " and " + CameraListText(cams[1..])
  {
  }

  /** A number alone reads back as itself. */
  lemma ReadSingle(x: string, n: int)
    requires ' ' !in x && ParseInt(x) == Some(n)
    ensures ReadCameraList(x) == Some([n])
  {
    TokenOfPadded(x, []);
    assert x + [] == x;
  }

  /** A number followed by " and " and more text reads as that number in
      front of what the rest reads as. */
  lemma ReadStep(x: string, n: int, tail: string, ns: seq<int>)
    requires ' ' !in x && ParseInt(x) == Some(n)
    requires tail != [] && ReadCameraList(tail) == Some(ns)
    ensures ReadCameraList(x + " and " + tail) == Some([n] + ns)
  {
    var text := x + " and " + tail;
    TokenOfPadded(x, " and " + tail);
    assert text == x + (" and " + tail);
    var rest := text[|x|..];
    assert rest == " and " + tail;
    assert rest[..5] == " and " && rest[5..] == tail;
  }

  /** The spoken camera list names exactly the commanded cameras, in order:
      reading it back gives the list it was made from. */
  lemma {:induction false} ReadCameraListText(cams: seq<int>)
    requires cams != []
    ensures ReadCameraList(CameraListText(cams)) == Some(cams)
  {
    var x := IntToString(cams[0]);
    NumberHasNoSpace(cams[0]);
    ParseIntOfIntToString(cams[0]);
    CameraListTextHead(cams);
    if |cams| == 1 {
      ReadSingle(x, cams[0]);
      assert cams == [cams[0]];
    } else {
      var tail := CameraListText(cams[1..]);
      CameraListTextHead(cams[1..]);
      assert tail != [] by {
        assert IntToString(cams[1..][0]) != [];
      }
      ReadCameraListText(cams[1..]);
      ReadStep(x, cams[0], tail, cams[1..]);
      assert [cams[0]] + cams[1..] == cams;
    }
  }

  /** A text with no space in it never mentions a word that starts with one. */
  lemma NoSpaceNoMention(s: string, w: string)
    requires ' ' !in s && w != [] && w[0] == ' '
    ensures !Mentions(s, w)
  {
  }

  /** A single camera is spoken as its number alone, with no " and ". */
  lemma SingleCameraHasNoConjunction(n: int)
    ensures CameraListText([n]) == IntToString(n)
    ensures !Mentions(CameraListText([n]), " and ")
  {
    CameraListTextHead([n]);
    NumberHasNoSpace(n);
    NoSpaceNoMention(IntToString(n), " and ");
  }

  // ---------------------------------------------------------------------------
  // Slot extraction.
  // ---------------------------------------------------------------------------

  /** The camera list holds one number per filled numbered slot, in the order
      CameraNumber, FirstCamera, SecondCamera, each the `int()` of that slot's
      value; so it never has more than three entries. */
  lemma SelectionCameras(slots: map<string, Slot>)
    requires SlotSelection(slots).Some?
    ensures var sel := SlotSelection(slots).value;
      var values := SlotValues(slots, "CameraNumber") + SlotValues(slots, "FirstCamera") + SlotValues(slots, "SecondCamera");
      |sel.cameras| == |values| <= 3
      && (forall i :: 0 <= i < |values| ==> ParseInt(values[i]) == Some(sel.cameras[i]))
      && sel.all == Filled(slots, "AllCameras")
  {
    NumberedValues(slots);
    ParseEachSpec(FilledValues(slots, NumberedSlots));
  }

  /** The slots are rejected exactly when some filled numbered slot holds a
      value `int()` does not accept; AllCameras does not rescue them. */
  lemma SelectionFails(slots: map<string, Slot>)
    ensures SlotSelection(slots).None?
        <==> exists name :: name in NumberedSlots && Filled(slots, name) && ParseInt(slots[name].value.value).None?
  {
    var values := FilledValues(slots, NumberedSlots);
    NumberedValues(slots);
    ParseEachSpec(values);
    var cn, fc, sc := SlotValues(slots, "CameraNumber"), SlotValues(slots, "FirstCamera"), SlotValues(slots, "SecondCamera");
    assert values == cn + fc + sc;
    if SlotSelection(slots).None? {
      var i :| 0 <= i < |values| && ParseInt(values[i]).None?;
      if i < |cn| {
        assert values[i] == slots["CameraNumber"].value.value;
        assert "CameraNumber" in NumberedSlots;
      } else if i < |cn| + |fc| {
        assert values[i] == slots["FirstCamera"].value.value;
        assert "FirstCamera" in NumberedSlots;
      } else {
        assert values[i] == slots["SecondCamera"].value.value;
        assert "SecondCamera" in NumberedSlots;
      }
    }
    if exists name :: name in NumberedSlots && Filled(slots, name) && ParseInt(slots[name].value.value).None? {
      var name :| name in NumberedSlots && Filled(slots, name) && ParseInt(slots[name].value.value).None?;
      if name == "CameraNumber" {
        assert values[0] == slots[name].value.value;
      } else if name == "FirstCamera" {
        assert values[|cn|] == slots[name].value.value;
      } else {
        assert values[|cn| + |fc|] == slots[name].value.value;
      }
    }
  }

  /** The same number in two slots is kept twice: no de-duplication. */
  lemma DuplicatesKept()
    ensures SlotSelection(map["CameraNumber" := Slot(Some("2")), "FirstCamera" := Slot(Some("2"))])
         == Some(Selection(false, [2, 2]))
  {
    var slots := map["CameraNumber" := Slot(Some("2")), "FirstCamera" := Slot(Some("2"))];
    NumberedValues(slots);
    assert !Filled(slots, "AllCameras") && !Filled(slots, "SecondCamera");
    assert SlotValues(slots, "CameraNumber") == ["2"];
    assert SlotValues(slots, "FirstCamera") == ["2"];
    assert FilledValues(slots, NumberedSlots) == ["2", "2"];
    ParseIntOfIntToString(2);
    assert IntToString(2) == "2";
    assert ParseInt("2") == Some(2);
    assert ParseEach([]) == Some([]);
    ParseEachSnoc([], "2");
    assert ["2"] == [] + ["2"];
    assert [] + [2] == [2];
    assert ParseEach(["2"]) == Some([2]);
    ParseEachSnoc(["2"], "2");
    assert ["2", "2"] == ["2"] + ["2"];
    assert [2] + [2] == [2, 2];
    assert ParseEach(["2", "2"]) == Some([2, 2]);
  }

  // ---------------------------------------------------------------------------
  // The handlers' answers.
  // ---------------------------------------------------------------------------

  /** The clarification prompt, which keeps the session open, is given exactly
      when the slots exist, no numbered slot is filled and AllCameras is not
      filled; then no command is built and nothing is posted. */
  lemma ClarifyExactlyWhenNothingSelected(a: Action, intent: Intent, address: Option<string>, remote: RemoteResult)
    ensures var o := CameraIntentOutcome(a, intent, address, remote);
      o.response == Speech(ClarifyText(a), false)
      <==> intent.slots.Some? && FilledValues(intent.slots.value, NumberedSlots) == []
           && !Filled(intent.slots.value, "AllCameras")
    ensures var o := CameraIntentOutcome(a, intent, address, remote);
      o.response == Speech(ClarifyText(a), false) ==> o.command.None? && o.post.None?
  {
  }

  lemma ErrorTextIsNoConfirmation(a: Action, sel: Selection)
    ensures ConfirmText(a, sel) != ErrorText
  {
    assert ConfirmText(a, sel)[0] != ErrorText[0];
  }

  /** The generic error answer, which ends the session, is given exactly when
      the intent has no slots object or a filled numbered slot is not an
      integer; then no command is built and nothing is posted. */
  lemma ErrorExactlyWhenUnreadable(a: Action, intent: Intent, address: Option<string>, remote: RemoteResult)
    ensures var o := CameraIntentOutcome(a, intent, address, remote);
      o.response == Speech(ErrorText, true)
      <==> intent.slots.None? || SlotSelection(intent.slots.value).None?
    ensures var o := CameraIntentOutcome(a, intent, address, remote);
      o.response == Speech(ErrorText, true) ==> o.command.None? && o.post.None?
  {
    if intent.slots.Some? && SlotSelection(intent.slots.value).Some? {
      ErrorTextIsNoConfirmation(a, SlotSelection(intent.slots.value).value);
    }
  }

  /** Once a selection is made, the handler answers with its confirmation and its command. */
  lemma ConfirmedBranch(a: Action, intent: Intent, address: Option<string>, remote: RemoteResult)
    requires intent.slots.Some? && SlotSelection(intent.slots.value).Some?
    requires var sel := SlotSelection(intent.slots.value).value; sel.cameras != [] || sel.all
    ensures var sel := SlotSelection(intent.slots.value).value;
      var o := CameraIntentOutcome(a, intent, address, remote);
      o.response == Speech(ConfirmText(a, sel), true) && o.command == Some(CommandFor(a, sel))
  {
  }

  /** A filled AllCameras slot overrides the numbered ones (once they all read
      as integers): opening sends [1, 2, 3] and says "Opening all cameras",
      closing sends ["all"] and says "Closing all cameras". */
  lemma AllCamerasOverrides(a: Action, intent: Intent, address: Option<string>, remote: RemoteResult)
    requires intent.slots.Some? && Filled(intent.slots.value, "AllCameras")
    requires SlotSelection(intent.slots.value).Some?
    ensures var o := CameraIntentOutcome(a, intent, address, remote);
      o.command == Some(Command(a, AllPayload(a)))
      && o.response == Speech(if a == Open then "Opening all cameras" else "Closing all cameras", true)
    ensures a == Open ==> AllPayload(a) == [Camera(1), Camera(2), Camera(3)]
    ensures a == Close ==> AllPayload(a) == [AllTag]
  {
    ConfirmedBranch(a, intent, address, remote);
    AllConfirmation(a, SlotSelection(intent.slots.value).value);
  }

  lemma AllConfirmation(a: Action, sel: Selection)
    requires sel.all
    ensures CommandFor(a, sel) == Command(a, AllPayload(a))
    ensures ConfirmText(a, sel) == if a == Open then "Opening all cameras" else "Closing all cameras"
  {
  }

  /** Without AllCameras, the command carries the extracted numbers exactly,
      and the speech is "Opening camera " / "Closing camera " and the numbers
      joined by " and ", which read back as those numbers in order. */
  lemma NumberedCommand(a: Action, intent: Intent, address: Option<string>, remote: RemoteResult)
    requires intent.slots.Some? && !Filled(intent.slots.value, "AllCameras")
    requires SlotSelection(intent.slots.value).Some?
    requires SlotSelection(intent.slots.value).value.cameras != []
    ensures var o := CameraIntentOutcome(a, intent, address, remote);
      var cams := SlotSelection(intent.slots.value).value.cameras;
      o.command.Some? && o.command.value.action == a
      && |o.command.value.cameras| == |cams|
      && (forall i :: 0 <= i < |cams| ==> o.command.value.cameras[i] == Camera(cams[i]))
      && o.response == Speech((if a == Open then "Opening camera " else "Closing camera ") + CameraListText(cams), true)
      && ReadCameraList(CameraListText(cams)) == Some(cams)
  {
    var sel := SlotSelection(intent.slots.value).value;
    ReadCameraListText(sel.cameras);
    ConfirmedBranch(a, intent, address, remote);
    NumberedConfirmation(a, sel);
  }

  lemma NumberedConfirmation(a: Action, sel: Selection)
    requires !sel.all
    ensures CommandFor(a, sel) == Command(a, CameraRefs(sel.cameras))
    ensures ConfirmText(a, sel) == (if a == Open then "Opening camera " else "Closing camera ") + CameraListText(sel.cameras)
  {
  }

  /** The controller's reply is only logged: the answer, the command and the
      POST are the same whatever the network did. */
  lemma ReplyDoesNotMatter(a: Action, intent: Intent, address: Option<string>, r1: RemoteResult, r2: RemoteResult)
    ensures CameraIntentOutcome(a, intent, address, r1) == CameraIntentOutcome(a, intent, address, r2)
  {
  }

  /** The slots of "open camera 1 and 2", filled through the pair slots. */
  function PairSlots(): map<string, Slot> {
    map["FirstCamera" := Slot(Some("1")), "SecondCamera" := Slot(Some("2"))]
  }

  lemma PairSelection()
    ensures SlotSelection(PairSlots()) == Some(Selection(false, [1, 2]))
  {
    var slots := PairSlots();
    NumberedValues(slots);
    ParseIntOfIntToString(1);
    ParseIntOfIntToString(2);
    assert IntToString(1) == "1" && IntToString(2) == "2";
    assert !Filled(slots, "AllCameras") && !Filled(slots, "CameraNumber");
    assert SlotValues(slots, "FirstCamera") == ["1"];
    assert SlotValues(slots, "SecondCamera") == ["2"];
    assert ParseEach([]) == Some([]);
    ParseEachSnoc([], "1");
    assert ["1"] == [] + ["1"];
    assert [] + [1] == [1];
    ParseEachSnoc(["1"], "2");
    assert ["1", "2"] == ["1"] + ["2"];
    assert [1] + [2] == [1, 2];
    assert FilledValues(slots, NumberedSlots) == ["1", "2"];
  }

  lemma PairText()
    ensures CameraListText([1, 2]) == "1 and 2"
  {
  }

  /** Asking to open cameras 1 and 2 through the pair slots sends [1, 2] and
      says "Opening camera 1 and 2". */
  lemma OpenPairScenario(address: Option<string>, remote: RemoteResult)
    ensures var o := CameraIntentOutcome(Open, Intent(Some("OpenCameraIntent"), Some(PairSlots())), address, remote);
      o.command == Some(Command(Open, [Camera(1), Camera(2)]))
      && o.response == Speech("Opening camera 1 and 2", true)
  {
    var intent := Intent(Some("OpenCameraIntent"), Some(PairSlots()));
    PairSelection();
    PairText();
    ConfirmedBranch(Open, intent, address, remote);
    PairConfirmation();
  }

  lemma PairConfirmation()
    ensures CommandFor(Open, Selection(false, [1, 2])) == Command(Open, [Camera(1), Camera(2)])
    ensures ConfirmText(Open, Selection(false, [1, 2])) == "Opening camera 1 and 2"
  {
  }

  // ---------------------------------------------------------------------------
  // Dispatch in alexa_endpoint.
  // ---------------------------------------------------------------------------

  /** An envelope without "request" is refused with a 400. */
  lemma MissingRequestRefused(env: Envelope, address: Option<string>, remote: RemoteResult)
    requires env.request.None?
    ensures AlexaEndpoint(env, address, remote) == Outcome(BadRequest("Invalid request format"), None, None)
  {
  }

  /** A LaunchRequest is welcomed and the session stays open. */
  lemma LaunchWelcomes(env: Envelope, address: Option<string>, remote: RemoteResult)
    requires env.request.Some? && env.request.value.requestType == Some("LaunchRequest")
    ensures var o := AlexaEndpoint(env, address, remote);
      o.response == Speech(WelcomeText, false) && o.command.None? && o.post.None?
  {
  }

  /** An intent other than the two camera intents is not understood and the
      session stays open. */
  lemma UnknownIntentNotUnderstood(env: Envelope, address: Option<string>, remote: RemoteResult)
    requires env.request.Some? && env.request.value.requestType == Some("IntentRequest")
    requires env.request.value.intent.Some? && env.request.value.intent.value.name.Some?
    requires env.request.value.intent.value.name.value !in {"OpenCameraIntent", "CloseCameraIntent"}
    ensures var o := AlexaEndpoint(env, address, remote);
      o.response == Speech(NotUnderstoodText, false) && o.command.None? && o.post.None?
  {
  }

  /** A SessionEndedRequest ends the session with no speech. */
  lemma SessionEndedCloses(env: Envelope, address: Option<string>, remote: RemoteResult)
    requires env.request.Some? && env.request.value.requestType == Some("SessionEndedRequest")
    ensures AlexaEndpoint(env, address, remote) == Outcome(SessionClosed, None, None)
  {
  }

  /** The camera intents are handed to the handler for their action. */
  lemma CameraIntentsDelegate(env: Envelope, address: Option<string>, remote: RemoteResult)
    requires env.request.Some? && env.request.value.requestType == Some("IntentRequest")
    requires env.request.value.intent.Some? && env.request.value.intent.value.name.Some?
    ensures var intent := env.request.value.intent.value;
      intent.name.value == "OpenCameraIntent" ==>
        AlexaEndpoint(env, address, remote) == CameraIntentOutcome(Open, intent, address, remote)
    ensures var intent := env.request.value.intent.value;
      intent.name.value == "CloseCameraIntent" ==>
        AlexaEndpoint(env, address, remote) == CameraIntentOutcome(Close, intent, address, remote)
  {
  }

  /** The endpoint answers 400 exactly when "request" is missing or its type
      is none of the three it knows. */
  lemma BadRequestExactly(env: Envelope, address: Option<string>, remote: RemoteResult)
    ensures Status(AlexaEndpoint(env, address, remote).response) == 400
        <==> env.request.None?
             || (env.request.value.requestType.Some?
                 && env.request.value.requestType.value !in {"LaunchRequest", "IntentRequest", "SessionEndedRequest"})
  {
  }

  /** A command is built, and a POST can be issued, only for an IntentRequest
      naming one of the two camera intents. */
  lemma CommandsOnlyFromCameraIntents(env: Envelope, address: Option<string>, remote: RemoteResult)
    ensures AlexaEndpoint(env, address, remote).command.Some?
        ==> env.request.Some? && env.request.value.requestType == Some("IntentRequest")
            && env.request.value.intent.Some?
            && env.request.value.intent.value.name.Some?
            && env.request.value.intent.value.name.value in {"OpenCameraIntent", "CloseCameraIntent"}
  {
  }
}
