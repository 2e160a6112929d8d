/** The inbound half of the text ("guacamole") protocol: the dispatcher that
    takes the element list of one decoded frame, picks the handler named by
    its first element (the opcode) and reports whether the frame is accepted.

    The handler is not modelled; what the dispatcher does to it is recorded as
    the sequence of handler calls it makes. JavaScript's `parseInt` is a
    parameter: whatever it is, it yields a number or NaN, never `undefined`. */
module GuacamoleInbound {
  import opened Wrappers

  /** The result of `parseInt`: a number, or NaN when no digits were found. */
  datatype ParsedInt = Num(value: int) | NaN

  /** One call on the message handler, one constructor per handler method.
      The user the frame came from is passed to every call and left out. */
  datatype HandlerCall =
    | OnNop
    | OnCapabilityUpgrade(caps: seq<string>)
    | OnLogin(token: string)
    | OnNoFlag
    | OnList
    | OnConnect(node: string)
    | OnView(node: string, viewMode: ParsedInt)
    | OnRename(requested: Option<string>)
    | OnChat(message: string)
    | OnTurnRequest(forfeit: bool)
    | OnMouse(x: ParsedInt, y: ParsedInt, mask: ParsedInt)
    | OnKey(keysym: ParsedInt, down: bool)
    | OnVote(choice: ParsedInt)
    | OnAudioMute
    | OnAdminLogin(password: string)
    | OnAdminMonitor(node: string, command: string)
    | OnAdminRestore(node: string)
    | OnAdminReboot(node: string)
    | OnAdminBanUser(username: string)
    | OnAdminForceVote(choice: ParsedInt)
    | OnAdminMuteUser(username: string, temporary: bool)
    | OnAdminKickUser(username: string)
    | OnAdminEndTurn(username: string)
    | OnAdminClearQueue(node: string)
    | OnAdminRename(username: string, newUsername: string)
    | OnAdminGetIP(username: string)
    | OnAdminBypassTurn
    | OnAdminRawMessage(message: string)
    | OnAdminToggleTurns(enabled: bool)
    | OnAdminIndefiniteTurn
    | OnAdminHideScreen(show: bool)
    | OnAdminSystemMessage(message: string)

  /** The boolean the dispatcher returns, and the handler calls it made
      before returning it, in order. */
  datatype Outcome = Outcome(accepted: bool, calls: seq<HandlerCall>)

  function Accept(c: HandlerCall): Outcome {
    Outcome(true, [c])
  }

  const Reject: Outcome := Outcome(false, [])

  const NoOp: Outcome := Outcome(true, [])

  /** The opcodes the dispatcher recognises. */
  const Opcodes: set<string> :=
    {"nop", "cap", "login", "noflag", "list", "connect", "view", "rename", "chat",
     "turn", "mouse", "key", "vote", "admin", "audioMute"}

  /** The admin sub-opcodes (second element) the admin dispatcher recognises. */
  const AdminOpcodes: set<string> :=
    {"2", "5", "8", "10", "12", "13", "14", "15", "16", "17", "18", "19", "20",
     "21", "22", "23", "24", "25"}

  /** The admin sub-dispatcher. Its only caller has already checked that the
      frame has a second element. */
  function ProcessAdmin(parseInt: string -> ParsedInt, elems: seq<string>): (r: Outcome)
    requires |elems| >= 2
    ensures |r.calls| <= 2
    ensures elems[1] !in AdminOpcodes ==> r == NoOp
    ensures !r.accepted ==> r.calls == [] || (elems[1] == "12" && |elems| > 3 && r.calls == [OnAdminBanUser(elems[2])])
    ensures |r.calls| == 2 ==> r.accepted && elems[1] == "12" && |elems| == 3
  {
    match elems[1]
    case "2" => if |elems| != 3 then Reject else Accept(OnAdminLogin(elems[2]))
    case "5" => if |elems| != 4 then Reject else Accept(OnAdminMonitor(elems[2], elems[3]))
    case "8" => if |elems| != 3 then Reject else Accept(OnAdminRestore(elems[2]))
    case "10" => if |elems| != 3 then Reject else Accept(OnAdminReboot(elems[2]))
    case "12" =>
      // No `break` after the ban: control falls into the force-vote case,
      // whose own arity check then decides the result.
      if |elems| < 3 then Reject
      else
        var ban := OnAdminBanUser(elems[2]);
        if |elems| != 3 then Outcome(false, [ban])
        else Outcome(true, [ban, OnAdminForceVote(parseInt(elems[2]))])
    case "13" => if |elems| != 3 then Reject else Accept(OnAdminForceVote(parseInt(elems[2])))
    case "14" =>
      if |elems| != 4 then Reject
      else if elems[3] == "0" then Accept(OnAdminMuteUser(elems[2], true))
      else if elems[3] == "1" then Accept(OnAdminMuteUser(elems[2], false))
      else Reject
    case "15" => if |elems| != 3 then Reject else Accept(OnAdminKickUser(elems[2]))
    case "16" => if |elems| != 3 then Reject else Accept(OnAdminEndTurn(elems[2]))
    case "17" => if |elems| != 3 then Reject else Accept(OnAdminClearQueue(elems[2]))
    case "18" => if |elems| != 4 then Reject else Accept(OnAdminRename(elems[2], elems[3]))
    case "19" => if |elems| != 3 then Reject else Accept(OnAdminGetIP(elems[2]))
    case "20" => Accept(OnAdminBypassTurn)
    case "21" => if |elems| != 3 then Reject else Accept(OnAdminRawMessage(elems[2]))
    case "22" =>
      if |elems| != 3 then Reject
      else if elems[2] == "0" then Accept(OnAdminToggleTurns(false))
      else if elems[2] == "1" then Accept(OnAdminToggleTurns(true))
      else Reject
    case "23" => Accept(OnAdminIndefiniteTurn)
    case "24" =>
      if |elems| != 3 then Reject
      else if elems[2] == "0" then Accept(OnAdminHideScreen(false))
      else if elems[2] == "1" then Accept(OnAdminHideScreen(true))
      else Reject
    case "25" => if |elems| != 3 then Reject else Accept(OnAdminSystemMessage(elems[2]))
    case _ => NoOp
  }

  /** The dispatcher: `processMessage` applied to the already decoded
      element list. */
  function ProcessMessage(parseInt: string -> ParsedInt, elems: seq<string>): (r: Outcome)
    ensures elems == [] ==> r == Reject
    ensures elems != [] && elems[0] !in Opcodes ==> r == NoOp
    ensures |r.calls| <= 2
    ensures |r.calls| == 2 ==> r.accepted && |elems| == 3 && elems[0] == "admin" && elems[1] == "12"
    ensures !r.accepted && r.calls != [] ==>
              |elems| > 3 && elems[0] == "admin" && elems[1] == "12" && r.calls == [OnAdminBanUser(elems[2])]
  {
    if |elems| < 1 then Reject
    else
      match elems[0]
      case "nop" => Accept(OnNop)
      case "cap" => if |elems| < 2 then Reject else Accept(OnCapabilityUpgrade(elems[1..]))
      case "login" => if |elems| != 2 then Reject else Accept(OnLogin(elems[1]))
      case "noflag" => Accept(OnNoFlag)
      case "list" => Accept(OnList)
      case "connect" => if |elems| != 2 then Reject else Accept(OnConnect(elems[1]))
      case "view" => if |elems| != 3 then Reject else Accept(OnView(elems[1], parseInt(elems[2])))
      case "rename" =>
        // No arity check: a missing name reaches the handler as undefined.
        Accept(OnRename(if |elems| >= 2 then Some(elems[1]) else None))
      case "chat" => if |elems| != 2 then Reject else Accept(OnChat(elems[1]))
      case "turn" =>
        if |elems| > 2 then Reject
        else Accept(OnTurnRequest(|elems| == 2 && elems[1] == "0"))
      case "mouse" =>
        if |elems| != 4 then Reject
        else Accept(OnMouse(parseInt(elems[1]), parseInt(elems[2]), parseInt(elems[3])))
      case "key" =>
        if |elems| != 3 then Reject
        else
          var down := parseInt(elems[2]);
          if down != Num(0) && down != Num(1) then Reject
          else Accept(OnKey(parseInt(elems[1]), down == Num(1)))
      case "vote" => if |elems| != 2 then Reject else Accept(OnVote(parseInt(elems[1])))
      case "admin" => if |elems| < 2 then Reject else ProcessAdmin(parseInt, elems)
      case "audioMute" => if |elems| != 1 then Reject else Accept(OnAudioMute)
      case _ => NoOp
  }

  // ---------------------------------------------------------------------
  // An independent statement of which handler each opcode reaches: the
  // opcode (and admin sub-opcode) each handler method answers, and the
  // string arguments a call carries, in the handler's parameter order.

  /** The top-level opcode whose frames reach this handler method. */
  function OpcodeOf(c: HandlerCall): (op: string)
    ensures op in Opcodes
  {
    match c
    case OnNop => "nop"
    case OnCapabilityUpgrade(_) => "cap"
    case OnLogin(_) => "login"
    case OnNoFlag => "noflag"
    case OnList => "list"
    case OnConnect(_) => "connect"
    case OnView(_, _) => "view"
    case OnRename(_) => "rename"
    case OnChat(_) => "chat"
    case OnTurnRequest(_) => "turn"
    case OnMouse(_, _, _) => "mouse"
    case OnKey(_, _) => "key"
    case OnVote(_) => "vote"
    case OnAudioMute => "audioMute"
    case _ => "admin"
  }

  /** The admin sub-opcode whose frames reach this handler method; none for
      the handlers of top-level opcodes. */
  function AdminOpcodeOf(c: HandlerCall): (sub: Option<string>)
    ensures sub.Some? <==> OpcodeOf(c) == "admin"
    ensures sub.Some? ==> sub.value in AdminOpcodes
  {
    match c
    case OnAdminLogin(_) => Some("2")
    case OnAdminMonitor(_, _) => Some("5")
    case OnAdminRestore(_) => Some("8")
    case OnAdminReboot(_) => Some("10")
    case OnAdminBanUser(_) => Some("12")
    case OnAdminForceVote(_) => Some("13")
    case OnAdminMuteUser(_, _) => Some("14")
    case OnAdminKickUser(_) => Some("15")
    case OnAdminEndTurn(_) => Some("16")
    case OnAdminClearQueue(_) => Some("17")
    case OnAdminRename(_, _) => Some("18")
    case OnAdminGetIP(_) => Some("19")
    case OnAdminBypassTurn => Some("20")
    case OnAdminRawMessage(_) => Some("21")
    case OnAdminToggleTurns(_) => Some("22")
    case OnAdminIndefiniteTurn => Some("23")
    case OnAdminHideScreen(_) => Some("24")
    case OnAdminSystemMessage(_) => Some("25")
    case _ => None
  }

  /** The string arguments of a call, in the handler's parameter order. */
  function StringArgs(c: HandlerCall): seq<string> {
    match c
    case OnCapabilityUpgrade(caps) => caps
    case OnLogin(token) => [token]
    case OnConnect(node) => [node]
    case OnView(node, _) => [node]
    case OnRename(requested) => if requested.Some? then [requested.value] else []
    case OnChat(message) => [message]
    case OnAdminLogin(password) => [password]
    case OnAdminMonitor(node, command) => [node, command]
    case OnAdminRestore(node) => [node]
    case OnAdminReboot(node) => [node]
    case OnAdminBanUser(username) => [username]
    case OnAdminMuteUser(username, _) => [username]
    case OnAdminKickUser(username) => [username]
    case OnAdminEndTurn(username) => [username]
    case OnAdminClearQueue(node) => [node]
    case OnAdminRename(username, newUsername) => [username, newUsername]
    case OnAdminGetIP(username) => [username]
    case OnAdminRawMessage(message) => [message]
    case OnAdminSystemMessage(message) => [message]
    case _ => []
  }

  /** Every call a frame makes goes to the handler of the frame's opcode,
      and for `admin` to the handler of its sub-opcode, except the force
      vote that sub-opcode `12` falls into. */
  lemma CallsFollowOpcode(parseInt: string -> ParsedInt, elems: seq<string>)
    ensures var r := ProcessMessage(parseInt, elems);
            forall k :: 0 <= k < |r.calls| ==>
              elems != [] && OpcodeOf(r.calls[k]) == elems[0] &&
              (elems[0] == "admin" ==>
                 |elems| >= 2 &&
                 (AdminOpcodeOf(r.calls[k]) == Some(elems[1]) ||
                  (elems[1] == "12" && k == 1 && AdminOpcodeOf(r.calls[k]) == Some("13"))))
  {
    if elems != [] && elems[0] == "admin" && |elems| >= 2 {
      AdminCallsFollowSubOpcode(parseInt, elems);
    }
  }

  /** The admin half: every call goes to the handler of the sub-opcode,
      except the second call of `12`, which is the force vote of `13`. */
  lemma AdminCallsFollowSubOpcode(parseInt: string -> ParsedInt, elems: seq<string>)
    requires |elems| >= 2
    ensures var r := ProcessAdmin(parseInt, elems);
            forall k :: 0 <= k < |r.calls| ==>
              OpcodeOf(r.calls[k]) == "admin" &&
              (AdminOpcodeOf(r.calls[k]) == Some(elems[1]) ||
               (elems[1] == "12" && k == 1 && AdminOpcodeOf(r.calls[k]) == Some("13")))
  {
  }

  // ---------------------------------------------------------------------
  // An independent statement of the element counts: the arity each opcode
  // demands, as a table, and what the dispatcher does with it.

  datatype Arity = Exactly(n: nat) | AtLeast(n: nat) | AtMost(n: nat)

  predicate Fits(a: Arity, len: nat) {
    match a
    case Exactly(n) => len == n
    case AtLeast(n) => len >= n
    case AtMost(n) => len <= n
  }

  /** The element count (opcode included) each recognised opcode demands. */
  function ArityOf(op: string): (a: Option<Arity>)
    ensures a.Some? <==> op in Opcodes
  {
    match op
    case "nop" => Some(AtLeast(1))
    case "noflag" => Some(AtLeast(1))
    case "list" => Some(AtLeast(1))
    case "rename" => Some(AtLeast(1))
    case "cap" => Some(AtLeast(2))
    case "admin" => Some(AtLeast(2))
    case "login" => Some(Exactly(2))
    case "connect" => Some(Exactly(2))
    case "chat" => Some(Exactly(2))
    case "vote" => Some(Exactly(2))
    case "view" => Some(Exactly(3))
    case "key" => Some(Exactly(3))
    case "mouse" => Some(Exactly(4))
    case "audioMute" => Some(Exactly(1))
    case "turn" => Some(AtMost(2))
    case _ => None
  }

  /** A recognised opcode with the wrong element count is rejected and no
      handler is called. */
  lemma WrongArityRejected(parseInt: string -> ParsedInt, elems: seq<string>)
    requires elems != [] && ArityOf(elems[0]).Some?
    requires !Fits(ArityOf(elems[0]).value, |elems|)
    ensures ProcessMessage(parseInt, elems) == Reject
  {
  }

  /** Every top-level opcode other than `key` and `admin` looks only at the
      element count: the frame is accepted, with exactly one handler call,
      if and only if the count fits. */
  lemma ArityDecides(parseInt: string -> ParsedInt, elems: seq<string>)
    requires elems != [] && elems[0] in Opcodes - {"key", "admin"}
    ensures var r := ProcessMessage(parseInt, elems);
            (r.accepted <==> Fits(ArityOf(elems[0]).value, |elems|)) &&
            |r.calls| == (if r.accepted then 1 else 0) &&
            (r.accepted ==>
               OpcodeOf(r.calls[0]) == elems[0] &&
               StringArgs(r.calls[0]) ==
                 if elems[0] in {"cap", "login", "connect", "chat"} then elems[1..]
                 else if elems[0] == "view" || (elems[0] == "rename" && |elems| >= 2) then [elems[1]]
                 else [])
  {
  }

  /** `vote`, `view` and `mouse` never reject because of what their numeric
      arguments parse to: NaN is passed to the handler like any number. */
  lemma NumericArgumentsNeverReject(parseInt: string -> ParsedInt, elems: seq<string>)
    requires elems != [] && elems[0] in {"vote", "view", "mouse"}
    requires Fits(ArityOf(elems[0]).value, |elems|)
    ensures ProcessMessage(parseInt, elems) ==
              match elems[0]
              case "vote" => Accept(OnVote(parseInt(elems[1])))
              case "view" => Accept(OnView(elems[1], parseInt(elems[2])))
              case _ => Accept(OnMouse(parseInt(elems[1]), parseInt(elems[2]), parseInt(elems[3])))
  {
  }

  /** `cap` hands over every element after the opcode. */
  lemma CapabilitiesPassTail(parseInt: string -> ParsedInt, elems: seq<string>)
    requires |elems| >= 2 && elems[0] == "cap"
    ensures ProcessMessage(parseInt, elems) == Accept(OnCapabilityUpgrade(elems[1..]))
    ensures |elems[1..]| == |elems| - 1 && forall i :: 1 <= i < |elems| ==> elems[1..][i - 1] == elems[i]
  {
  }

  /** `rename` is accepted at any length; the requested name is absent when
      the frame has no second element. */
  lemma RenameHasNoArityCheck(parseInt: string -> ParsedInt, elems: seq<string>)
    requires elems != [] && elems[0] == "rename"
    ensures var r := ProcessMessage(parseInt, elems);
            r.accepted && |r.calls| == 1 && r.calls[0].OnRename? &&
            (r.calls[0].requested.Some? <==> |elems| >= 2) &&
            (|elems| >= 2 ==> r.calls[0].requested.value == elems[1])
  {
  }

  /** `turn`: more than two elements rejects; otherwise the request is a
      forfeit exactly when the second element is "0". */
  lemma TurnForfeit(parseInt: string -> ParsedInt, elems: seq<string>)
    requires elems != [] && elems[0] == "turn"
    ensures var r := ProcessMessage(parseInt, elems);
            (r.accepted <==> |elems| <= 2) &&
            (!r.accepted ==> r.calls == []) &&
            (r.accepted ==> exists forfeit :: r.calls == [OnTurnRequest(forfeit)] &&
                                              (forfeit <==> |elems| == 2 && elems[1] == "0"))
  {
  }

  /** `key`: with three elements the frame is accepted exactly when the down
      flag parses to 0 or 1, and the key is reported pressed exactly when it
      parsed to 1. */
  lemma KeyDownFlag(parseInt: string -> ParsedInt, elems: seq<string>)
    requires |elems| == 3 && elems[0] == "key"
    ensures var r := ProcessMessage(parseInt, elems);
            var down := parseInt(elems[2]);
            (r.accepted <==> down == Num(0) || down == Num(1)) &&
            (!r.accepted ==> r.calls == []) &&
            (r.accepted ==> r.calls == [OnKey(parseInt(elems[1]), down == Num(1))])
  {
  }

  /** `admin` without a sub-opcode is rejected; an unknown sub-opcode is
      accepted without a call; `20` and `23` are accepted at any length. */
  lemma AdminSubDispatch(parseInt: string -> ParsedInt, elems: seq<string>)
    requires elems != [] && elems[0] == "admin"
    ensures |elems| < 2 ==> ProcessMessage(parseInt, elems) == Reject
    ensures |elems| >= 2 && elems[1] !in AdminOpcodes ==> ProcessMessage(parseInt, elems) == NoOp
    ensures |elems| >= 2 && elems[1] == "20" ==> ProcessMessage(parseInt, elems) == Accept(OnAdminBypassTurn)
    ensures |elems| >= 2 && elems[1] == "23" ==> ProcessMessage(parseInt, elems) == Accept(OnAdminIndefiniteTurn)
  {
  }

  /** The flag argument of admin `14` (mute), `22` (toggle turns) and `24`
      (hide screen) must be exactly "0" or "1"; for a mute, "0" is temporary
      and "1" permanent. */
  lemma AdminFlags(parseInt: string -> ParsedInt, elems: seq<string>)
    requires |elems| >= 2 && elems[0] == "admin" && elems[1] in {"14", "22", "24"}
    ensures var r := ProcessMessage(parseInt, elems);
            var n := if elems[1] == "14" then 4 else 3;
            (r.accepted <==> |elems| == n && elems[n - 1] in {"0", "1"}) &&
            (!r.accepted ==> r.calls == []) &&
            (r.accepted && elems[1] == "14" ==> r.calls == [OnAdminMuteUser(elems[2], elems[3] == "0")]) &&
            (r.accepted && elems[1] == "22" ==> r.calls == [OnAdminToggleTurns(elems[2] == "1")]) &&
            (r.accepted && elems[1] == "24" ==> r.calls == [OnAdminHideScreen(elems[2] == "1")])
  {
  }

  /** Admin `12` (ban) falls through into `13` (force vote). */
  lemma AdminBanFallsThrough(parseInt: string -> ParsedInt, elems: seq<string>)
    requires |elems| >= 2 && elems[0] == "admin" && elems[1] == "12"
    ensures |elems| < 3 ==> ProcessMessage(parseInt, elems) == Reject
    ensures |elems| == 3 ==>
              ProcessMessage(parseInt, elems) ==
              Outcome(true, [OnAdminBanUser(elems[2]), OnAdminForceVote(parseInt(elems[2]))])
    ensures |elems| > 3 ==> ProcessMessage(parseInt, elems) == Outcome(false, [OnAdminBanUser(elems[2])])
  {
  }

  /** Every other admin sub-opcode has a fixed element count: accepted,
      with one call, exactly when the count is right. */
  lemma AdminArity(parseInt: string -> ParsedInt, elems: seq<string>)
    requires |elems| >= 2 && elems[0] == "admin"
    requires elems[1] in {"2", "5", "8", "10", "13", "15", "16", "17", "18", "19", "21", "25"}
    ensures var r := ProcessMessage(parseInt, elems);
            (r.accepted <==> |elems| == (if elems[1] in {"5", "18"} then 4 else 3)) &&
            |r.calls| == (if r.accepted then 1 else 0) &&
            (r.accepted ==>
               AdminOpcodeOf(r.calls[0]) == Some(elems[1]) &&
               (elems[1] != "13" ==> StringArgs(r.calls[0]) == elems[2..]) &&
               (elems[1] == "13" ==> r.calls[0] == OnAdminForceVote(parseInt(elems[2]))))
  {
  }
}
