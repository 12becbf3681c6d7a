/** The voice-assistant webhook of server.py (the variant that forwards
    commands to a remote camera controller): dispatch of the request
    envelope, slot extraction, command and speech construction, and the
    address guard in front of the outbound POST. */
module AlexaServer {
  import opened Wrappers
  import opened PyText

  // ---------------------------------------------------------------------------
  // The request envelope, as far as the webhook reads it. A field that may be
  // missing from the JSON is an Option.
  // ---------------------------------------------------------------------------

  /** One intent slot: `{"name": ..., "value": ...}`, where "value" may be absent. */
  datatype Slot = Slot(value: Option<string>)

  /** `request.intent`: its "name" and its "slots" object, keyed by slot name. */
  datatype Intent = Intent(name: Option<string>, slots: Option<map<string, Slot>>)

  /** `request`: its "type" and, for an IntentRequest, its "intent". */
  datatype Request = Request(requestType: Option<string>, intent: Option<Intent>)

  /** The top-level JSON object; "request" may be absent. */
  datatype Envelope = Envelope(request: Option<Request>)

  // ---------------------------------------------------------------------------
  // The command forwarded to the controller, and the outbound request.
  // ---------------------------------------------------------------------------

  datatype Action = Open | Close

  /** An entry of the command's "cameras" list: a number, or the string "all". */
  datatype CameraRef = Camera(id: int) | AllTag

  /** `{"action": "open" | "close", "cameras": [...]}` */
  datatype Command = Command(action: Action, cameras: seq<CameraRef>)

  /** The POST the webhook issues: its URL and its JSON body. */
  datatype Post = Post(url: string, body: Command)

  /** What the network made of a POST: a JSON reply, or an exception with its text. */
  datatype RemoteResult = Answered(json: string) | Failed(reason: string)

  /** The dictionary `send_command_to_pi` returns. */
  datatype PiReply = PiAnswer(json: string) | PiError(message: string)

  /** One call of `send_command_to_pi`: the POST it issued, if any, and its return value. */
  datatype Delivery = Delivery(post: Option<Post>, reply: PiReply)

  // ---------------------------------------------------------------------------
  // What the webhook answers.
  // ---------------------------------------------------------------------------

  /** The HTTP response body, by kind. */
  datatype Response =
    | Speech(text: string, endSession: bool)  // 200, outputSpeech plus shouldEndSession
    | SessionClosed                          // 200, shouldEndSession true and no speech
    | BadRequest(error: string)              // 400, {"error": ...}
    | ServerError(error: string)             // 500, {"error": str(e)}

  /** Everything one request causes: the response, the command built for the
      controller (if any) and the POST actually issued (if any). */
  datatype Outcome = Outcome(response: Response, command: Option<Command>, post: Option<Post>)

  function Status(r: Response): (code: int)
    ensures code == 200 <==> r.Speech? || r.SessionClosed?
    ensures code == 400 <==> r.BadRequest?
  {
    match r
    case Speech(_, _) => 200
    case SessionClosed => 200
    case BadRequest(_) => 400
    case ServerError(_) => 500
  }

  const WelcomeText := "Welcome to Surveillance Camera Control. You can say open camera 1, or remove camera 2."
  const NotUnderstoodText := "I didn't understand that command. You can say open camera 1, or remove camera 2."
  const ErrorText := "There was an error processing your request."
  const InvalidFormatText := "Invalid request format"
  const UnsupportedTypeText := "Unsupported request type"
  const NotConfiguredText := "RASPBERRY_PI_ADDRESS not configured"
  const SendFailedPrefix := "Failed to send command to Raspberry Pi: "

  /** The slot names read after AllCameras, in the order they are read. */
  const NumberedSlots: seq<string> := ["CameraNumber", "FirstCamera", "SecondCamera"]

  /** The action-specific parts of the two handlers. */
  function Verb(a: Action): string {
    match a
    case Open => "Opening"
    case Close => "Closing"
  }

  function ClarifyText(a: Action): string {
    match a
    case Open => "Please specify which camera you want to open."
    case Close => "Please specify which camera you want to close, or say 'all' to close all cameras."
  }

  /** The "cameras" list sent when AllCameras is filled: [1, 2, 3] to open, ["all"] to close. */
  function AllPayload(a: Action): seq<CameraRef> {
    match a
    case Open => [Camera(1), Camera(2), Camera(3)]
    case Close => [AllTag]
  }

  // ---------------------------------------------------------------------------
  // Slot extraction.
  // ---------------------------------------------------------------------------

  /** `name in slots and slots[name].get('value')`: present, with a truthy
      (non-empty) value. */
  predicate Filled(slots: map<string, Slot>, name: string) {
    name in slots && slots[name].value.Some? && slots[name].value.value != ""
  }

  /** The values of the filled slots among `names`, in the order of `names`. */
  function FilledValues(slots: map<string, Slot>, names: seq<string>): (vs: seq<string>)
    ensures |vs| <= |names|
    ensures vs == [] <==> forall i :: 0 <= i < |names| ==> !Filled(slots, names[i])
  {
    if names == [] then []
    else if Filled(slots, names[0]) then [slots[names[0]].value.value] + FilledValues(slots, names[1..])
    else FilledValues(slots, names[1..])
  }

  /** `[int(v) for v in vs]`, or None when `int` rejects one of them. */
  function ParseEach(vs: seq<string>): (r: Option<seq<int>>)
    ensures r.Some? ==> |r.value| == |vs|
  {
    if vs == [] then Some([])
    else
      match ParseInt(vs[0])
      case None => None
      case Some(n) =>
        match ParseEach(vs[1..])
        case None => None
        case Some(ns) => Some([n] + ns)
  }

  /** The value of slot `name` when it is filled, as a list of zero or one values. */
  function SlotValues(slots: map<string, Slot>, name: string): (vs: seq<string>)
    ensures |vs| <= 1
  {
    if Filled(slots, name) then [slots[name].value.value] else []
  }

  /** The numbered slots are read as CameraNumber, then FirstCamera, then SecondCamera. */
  lemma NumberedValues(slots: map<string, Slot>)
    ensures FilledValues(slots, NumberedSlots)
         == SlotValues(slots, "CameraNumber") + SlotValues(slots, "FirstCamera") + SlotValues(slots, "SecondCamera")
  {
    var ns := NumberedSlots;
    FilledValuesCons(slots, ns);
    assert ns[1..] == ["FirstCamera", "SecondCamera"];
    FilledValuesCons(slots, ns[1..]);
    assert ns[1..][1..] == ["SecondCamera"];
    FilledValuesCons(slots, ns[1..][1..]);
    assert ns[1..][1..][1..] == [];
  }

  lemma FilledValuesCons(slots: map<string, Slot>, names: seq<string>)
    requires names != []
    ensures FilledValues(slots, names) == SlotValues(slots, names[0]) + FilledValues(slots, names[1..])
  {
  }

  /** `ParseEach` fails exactly when some value is rejected, and otherwise
      holds the number of each value at that value's position. */
  lemma {:induction false} ParseEachSpec(vs: seq<string>)
    ensures ParseEach(vs).Some? ==> forall i :: 0 <= i < |vs| ==> ParseInt(vs[i]) == Some(ParseEach(vs).value[i])
    ensures ParseEach(vs).None? <==> exists i :: 0 <= i < |vs| && ParseInt(vs[i]).None?
  {
    if vs != [] {
      ParseEachSpec(vs[1..]);
      if ParseInt(vs[0]).Some? && ParseEach(vs[1..]).Some? {
        forall i | 1 <= i < |vs| ensures ParseInt(vs[i]) == Some(ParseEach(vs).value[i]) {
          assert vs[i] == vs[1..][i - 1];
        }
      } else if ParseInt(vs[0]).Some? {
        var j :| 0 <= j < |vs[1..]| && ParseInt(vs[1..][j]).None?;
        assert vs[j + 1] == vs[1..][j];
      }
      if ParseEach(vs).Some? {
        forall i | 0 < i < |vs| ensures ParseInt(vs[i]).Some? {
          assert vs[i] == vs[1..][i - 1];
        }
      }
    }
  }

  /** Parsing a concatenation parses each part. */
  lemma {:induction false} ParseEachConcat(xs: seq<string>, ys: seq<string>)
    ensures ParseEach(xs + ys).Some? <==> ParseEach(xs).Some? && ParseEach(ys).Some?
    ensures ParseEach(xs + ys).Some? ==> ParseEach(xs + ys).value == ParseEach(xs).value + ParseEach(ys).value
  {
    if xs == [] {
      assert xs + ys == ys;
    } else {
      var zs := xs + ys;
      assert zs[0] == xs[0];
      assert zs[1..] == xs[1..] + ys;
      ParseEachConcat(xs[1..], ys);
      if ParseInt(xs[0]).Some? && ParseEach(zs).Some? {
        var n := ParseInt(xs[0]).value;
        assert ParseEach(zs).value == [n] + ParseEach(zs[1..]).value;
        assert ParseEach(xs).value == [n] + ParseEach(xs[1..]).value;
      }
    }
  }

  /** Reading one more value that `int()` accepts extends the parse by its number. */
  lemma ParseEachSnoc(xs: seq<string>, v: string)
    requires ParseEach(xs).Some? && ParseInt(v).Some?
    ensures ParseEach(xs + [v]) == Some(ParseEach(xs).value + [ParseInt(v).value])
  {
    var n := ParseInt(v).value;
    assert ParseEach([v]) == Some([n]) by {
      assert [v][0] == v && [v][1..] == [];
      assert ParseEach([v][1..]) == Some([]);
      assert [n] + [] == [n];
    }
    ParseEachConcat(xs, [v]);
    assert ParseEach(xs + [v]).Some?;
    assert ParseEach(xs + [v]).value == ParseEach(xs).value + [n];
  }

  /** The handlers' reading of the slots: the AllCameras flag and the camera list. */
  datatype Selection = Selection(all: bool, cameras: seq<int>)

  /** The selection the slots make, or None when a filled numbered slot is not an integer. */
  function SlotSelection(slots: map<string, Slot>): Option<Selection>
  {
    match ParseEach(FilledValues(slots, NumberedSlots))
    case None => None
    case Some(cameras) => Some(Selection(Filled(slots, "AllCameras"), cameras))
  }

  // ---------------------------------------------------------------------------
  // Command and speech construction.
  // ---------------------------------------------------------------------------

  function CameraRefs(cameras: seq<int>): (refs: seq<CameraRef>)
    ensures |refs| == |cameras| && forall i :: 0 <= i < |cameras| ==> refs[i] == Camera(cameras[i])
  {
    if cameras == [] then [] else [Camera(cameras[0])] + CameraRefs(cameras[1..])
  }

  /** `[str(cam) for cam in cameras]` */
  function Decimals(cameras: seq<int>): (ds: seq<string>)
    ensures |ds| == |cameras| && forall i :: 0 <= i < |cameras| ==> ds[i] == IntToString(cameras[i])
  {
    if cameras == [] then [] else [IntToString(cameras[0])] + Decimals(cameras[1..])
  }

  /** `" and ".join([str(cam) for cam in cameras])` */
  function CameraListText(cameras: seq<int>): string {
    Join(" and ", Decimals(cameras))
  }

  function CommandFor(a: Action, sel: Selection): Command {
    Command(a, if sel.all then AllPayload(a) else CameraRefs(sel.cameras))
  }

  function ConfirmText(a: Action, sel: Selection): string {
    if sel.all then Verb(a) + " all cameras" else Verb(a) + " camera " + CameraListText(sel.cameras)
  }

  // ---------------------------------------------------------------------------
  // send_command_to_pi
  // ---------------------------------------------------------------------------

  /** `not PI_ADDRESS` fails for None and for the empty string. */
  predicate Configured(address: Option<string>) {
    address.Some? && address.value != ""
  }

  /** `send_command_to_pi(cmd)` with the configured address; `remote` stands
      for what the network does with the POST. Without an address no POST
      is issued and the "not configured" error comes back. */
  function SendCommandToPi(address: Option<string>, cmd: Command, remote: RemoteResult): (d: Delivery)
    ensures d.post.Some? <==> Configured(address)
    ensures !Configured(address) ==> d.reply == PiError(NotConfiguredText)
    ensures d.post.Some? ==> d.post.value.url == address.value + "/command" && d.post.value.body == cmd
    ensures d.post.Some? && remote.Failed? ==> d.reply == PiError(SendFailedPrefix + remote.reason)
    ensures d.post.Some? && remote.Answered? ==> d.reply == PiAnswer(remote.json)
  {
    if !Configured(address) then Delivery(None, PiError(NotConfiguredText))
    else
      var post := Post(address.value + "/command", cmd);
      match remote
      case Answered(json) => Delivery(Some(post), PiAnswer(json))
      case Failed(reason) => Delivery(Some(post), PiError(SendFailedPrefix + reason))
  }

  // ---------------------------------------------------------------------------
  // handle_open_camera / handle_close_camera
  // ---------------------------------------------------------------------------

  /** An outcome keeps the webhook's promises: a command is only built by an
      answer that ends the session, and the POST carries exactly that command. */
  predicate Coherent(o: Outcome) {
    (o.command.Some? ==> o.response.Speech? && o.response.endSession)
    && (o.post.Some? ==> o.command.Some? && o.post.value.body == o.command.value)
  }

  function ErrorOutcome(): Outcome {
    Outcome(Speech(ErrorText, true), None, None)
  }

  /** What the handler for `a` answers to `intent`; the reply of the controller
      is only logged and does not reach the answer. */
  function CameraIntentOutcome(a: Action, intent: Intent, address: Option<string>, remote: RemoteResult): (o: Outcome)
    ensures Coherent(o) && o.response.Speech?
    ensures o.command.Some? ==> o.command.value.action == a
    ensures o.post.Some? <==> o.command.Some? && Configured(address)
  {
    match intent.slots
    case None => ErrorOutcome()
    case Some(slots) =>
      match SlotSelection(slots)
      case None => ErrorOutcome()
      case Some(sel) =>
        if sel.cameras == [] && !sel.all then Outcome(Speech(ClarifyText(a), false), None, None)
        else
          var cmd := CommandFor(a, sel);
          var delivery := SendCommandToPi(address, cmd, remote);
          Outcome(Speech(ConfirmText(a, sel), true), Some(cmd), delivery.post)
  }

  /** The slot reading shared by both handlers, as the source writes it: the
      AllCameras flag is set first, then the camera list grows slot by slot;
      the first filled slot whose value `int()` rejects ends the reading. */
  method ReadSelection(slots: map<string, Slot>) returns (sel: Option<Selection>)
    ensures sel == SlotSelection(slots)
  {
    ghost var values := FilledValues(slots, NumberedSlots);
    NumberedValues(slots);
    // `seen` is the prefix of `values` read so far; `cameras` is its parse.
    ghost var seen: seq<string> := [];
    var cameras: seq<int> := [];
    var all := false;
    if Filled(slots, "AllCameras") {
      all := true;
    }
    if Filled(slots, "CameraNumber") {
      var v := slots["CameraNumber"].value.value;
      var n := ParseInt(v);
      assert values[|seen|] == v;
      if n.None? {
        ParseEachSpec(values);
        return None;
      }
      ParseEachSnoc(seen, v);
      seen := seen + [v];
      cameras := cameras + [n.value];
    }
    assert seen == SlotValues(slots, "CameraNumber") && ParseEach(seen) == Some(cameras);
    if Filled(slots, "FirstCamera") {
      var v := slots["FirstCamera"].value.value;
      var n := ParseInt(v);
      assert values[|seen|] == v;
      if n.None? {
        ParseEachSpec(values);
        return None;
      }
      ParseEachSnoc(seen, v);
      seen := seen + [v];
      cameras := cameras + [n.value];
    }
    assert seen == SlotValues(slots, "CameraNumber") + SlotValues(slots, "FirstCamera");
    assert ParseEach(seen) == Some(cameras);
    if Filled(slots, "SecondCamera") {
      var v := slots["SecondCamera"].value.value;
      var n := ParseInt(v);
      assert values[|seen|] == v;
      if n.None? {
        ParseEachSpec(values);
        return None;
      }
      ParseEachSnoc(seen, v);
      seen := seen + [v];
      cameras := cameras + [n.value];
    }
    assert seen == values;
    sel := Some(Selection(all, cameras));
  }

  /** `handle_open_camera` (a == Open) and `handle_close_camera` (a == Close):
      a missing "slots" object or a rejected slot value gives the generic
      error answer, an empty selection the clarification prompt, anything
      else a command, its POST and its confirmation. */
  method HandleCameraIntent(a: Action, intent: Intent, address: Option<string>, remote: RemoteResult)
    returns (o: Outcome)
    ensures o == CameraIntentOutcome(a, intent, address, remote)
  {
    if intent.slots.None? {
      return ErrorOutcome();
    }
    var selection := ReadSelection(intent.slots.value);
    if selection.None? {
      return ErrorOutcome();
    }
    var sel := selection.value;
    if sel.cameras == [] && !sel.all {
      return Outcome(Speech(ClarifyText(a), false), None, None);
    }
    var cmd: Command;
    var text: string;
    if sel.all {
      cmd := Command(a, AllPayload(a));
      text := Verb(a) + " all cameras";
    } else {
      cmd := Command(a, CameraRefs(sel.cameras));
      text := Verb(a) + " camera " + CameraListText(sel.cameras);
    }
    var delivery := SendCommandToPi(address, cmd, remote);
    o := Outcome(Speech(text, true), Some(cmd), delivery.post);
  }

  // ---------------------------------------------------------------------------
  // alexa_endpoint
  // ---------------------------------------------------------------------------

  function Answer(r: Response): Outcome {
    Outcome(r, None, None)
  }

  /** The webhook's answer to one envelope. A key the code indexes without a
      check (`request.type`, `request.intent`, `intent.name`) raises KeyError,
      which the outer handler turns into a 500 carrying `str(e)`. */
  function AlexaEndpoint(env: Envelope, address: Option<string>, remote: RemoteResult): (o: Outcome)
    ensures Coherent(o)
    ensures o.command.Some? ==> Status(o.response) == 200
  {
    match env.request
    case None => Answer(BadRequest(InvalidFormatText))
    case Some(req) =>
      match req.requestType
      case None => Answer(ServerError("'type'"))
      case Some(t) =>
        if t == "LaunchRequest" then Answer(Speech(WelcomeText, false))
        else if t == "IntentRequest" then
          match req.intent
          case None => Answer(ServerError("'intent'"))
          case Some(intent) =>
            match intent.name
            case None => Answer(ServerError("'name'"))
            case Some(name) =>
              if name == "OpenCameraIntent" then CameraIntentOutcome(Open, intent, address, remote)
              else if name == "CloseCameraIntent" then CameraIntentOutcome(Close, intent, address, remote)
              else Answer(Speech(NotUnderstoodText, false))
        else if t == "SessionEndedRequest" then Answer(SessionClosed)
        else Answer(BadRequest(UnsupportedTypeText))
  }
}
