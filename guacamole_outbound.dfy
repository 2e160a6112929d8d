/** The outbound half of the text ("guacamole") protocol: each sender maps
    its typed arguments to the element list that the external encoder turns
    into a wire frame. The encoder itself is not modelled; a sender's effect
    is the list of outbound items it hands to the user's connection. */
module GuacamoleOutbound {
  import opened Wrappers
  import opened Decimal

  // ---------------------------------------------------------------------
  // Argument records

  datatype ChatEntry = ChatEntry(user: string, msg: string)

  /** A user in an `adduser` list; `rank` is the numeric value of the rank. */
  datatype UserEntry = UserEntry(username: string, rank: nat)

  datatype FlagEntry = FlagEntry(username: string, countryCode: string)

  /** A node in a `list` reply; the thumbnail is raw image bytes. */
  datatype ListEntry = ListEntry(id: string, name: string, thumbnail: seq<Byte>)

  /** A changed screen rectangle and its encoded pixel payload. */
  datatype ScreenRect = ScreenRect(x: nat, y: nat, width: nat, height: nat, data: seq<Byte>)

  /** The side inputs a sender reads: the current time in milliseconds and
      the Base64 encoder used for binary payloads in text elements. */
  datatype Env = Env(now: nat, base64: seq<Byte> -> string)

  /** The semantic outbound message set: one constructor per sender. */
  datatype Message =
    | Auth(authServer: string)
    | Nop
    | Sync(time: nat)
    | Capabilities(caps: seq<string>)
    | ConnectFailResponse
    | ConnectOKResponse(votes: bool)
    | LoginResponse(ok: bool, message: string)
    | AdminLoginResponse(ok: bool, modPerms: Option<nat>)
    | AdminMonitorResponse(output: string)
    | AdminIPResponse(username: string, ip: string)
    | ChatMessage(username: string, message: string)
    | ChatHistory(history: seq<ChatEntry>)
    | AddUser(added: seq<UserEntry>)
    | RemUser(removed: seq<string>)
    | Flag(flags: seq<FlagEntry>)
    | SelfRename(status: nat, newUsername: string, rank: nat)
    | Rename(oldUsername: string, newUsername: string, rank: nat)
    | ListResponse(nodes: seq<ListEntry>)
    | VoteStarted
    | VoteStats(msLeft: nat, nrYes: nat, nrNo: nat)
    | VoteEnded
    | VoteCooldown(ms: nat)
    | TurnQueue(turnTime: nat, users: seq<string>)
    | TurnQueueWaiting(turnTime: nat, users: seq<string>, waitTime: nat)
    | ScreenResize(width: nat, height: nat)
    | ScreenUpdate(buffer: seq<Byte>, rect: ScreenRect)
    | AudioOpus(packet: seq<Byte>)

  /** The self-describing records the binary variant sends instead of text. */
  datatype BinaryRecord =
    | FrameRec(frame: seq<Byte>, rect: ScreenRect)
    | AudioRec(opusPacket: seq<Byte>)

  /** What a sender hands to the connection: a text element list (before
      wire encoding) or a binary record (before serialisation). */
  datatype Outbound = Text(elems: seq<string>) | Binary(rec: BinaryRecord)

  // ---------------------------------------------------------------------
  // Flattening a list of records into consecutive elements

  function FlatMap<T>(xs: seq<T>, f: T -> seq<string>): seq<string>
    decreases |xs|
  {
    if xs == [] then [] else f(xs[0]) + FlatMap(xs[1..], f)
  }

  /** Appending a record appends its elements. */
  lemma {:induction false} FlatMapSnoc<T>(xs: seq<T>, x: T, f: T -> seq<string>)
    ensures FlatMap(xs + [x], f) == FlatMap(xs, f) + f(x)
    decreases |xs|
  {
    if xs == [] {
      assert [x][1..] == [];
    } else {
      assert (xs + [x])[1..] == xs[1..] + [x];
      FlatMapSnoc(xs[1..], x, f);
    }
  }

  /** When every record yields k elements, the flattened list has k per
      record, and element j of record i sits at position k*i + j. */
  lemma {:induction false} FlatMapAt<T>(xs: seq<T>, f: T -> seq<string>, k: nat, i: nat, j: nat)
    requires forall x :: |f(x)| == k
    requires i < |xs| && j < k
    ensures |FlatMap(xs, f)| == k * |xs|
    ensures k * i + j < k * |xs| && FlatMap(xs, f)[k * i + j] == f(xs[i])[j]
    decreases |xs|
  {
    FlatMapLength(xs, f, k);
    var head, rest := f(xs[0]), FlatMap(xs[1..], f);
    assert FlatMap(xs, f) == head + rest && |head| == k;
    assert k * |xs| == k + k * (|xs| - 1);
    if i > 0 {
      var n := k * (i - 1) + j;
      FlatMapAt(xs[1..], f, k, i - 1, j);
      assert k * i + j == k + n;
      assert (head + rest)[k + n] == rest[n];
      assert xs[1..][i - 1] == xs[i];
    }
  }

  lemma {:induction false} FlatMapLength<T>(xs: seq<T>, f: T -> seq<string>, k: nat)
    requires forall x :: |f(x)| == k
    ensures |FlatMap(xs, f)| == k * |xs|
    decreases |xs|
  {
    if xs != [] {
      FlatMapLength(xs[1..], f, k);
      assert k * |xs| == k + k * |xs[1..]|;
    }
  }

  // ---------------------------------------------------------------------
  // Element lists of the senders

  function AuthElems(authServer: string): seq<string> {
    ["auth", authServer]
  }

  function SyncElems(now: nat): seq<string> {
    ["sync", NatToString(now)]
  }

  function CapabilitiesElems(caps: seq<string>): seq<string> {
    ["cap"] + caps
  }

  function ConnectOKElems(votes: bool): seq<string> {
    ["connect", "1", "1", if votes then "1" else "0", "0"]
  }

  function LoginResponseElems(ok: bool, message: string): seq<string> {
    if ok then ["login", "1"] else ["login", "0", message]
  }

  function AdminLoginResponseElems(ok: bool, modPerms: Option<nat>): seq<string> {
    if !ok then ["admin", "0", "0"]
    else if modPerms.None? then ["admin", "0", "1"]
    else ["admin", "0", "3", NatToString(modPerms.value)]
  }

  function ChatPair(e: ChatEntry): seq<string> {
    [e.user, e.msg]
  }

  function ChatHistoryElems(history: seq<ChatEntry>): seq<string> {
    ["chat"] + FlatMap(history, ChatPair)
  }

  function UserPair(u: UserEntry): seq<string> {
    [u.username, NatToString(u.rank)]
  }

  function AddUserElems(added: seq<UserEntry>): seq<string> {
    ["adduser", NatToString(|added|)] + FlatMap(added, UserPair)
  }

  function RemUserElems(removed: seq<string>): seq<string> {
    ["remuser", NatToString(|removed|)] + removed
  }

  function FlagPair(f: FlagEntry): seq<string> {
    [f.username, f.countryCode]
  }

  function FlagElems(flags: seq<FlagEntry>): seq<string> {
    ["flag"] + FlatMap(flags, FlagPair)
  }

  function NodeTriple(base64: seq<Byte> -> string, e: ListEntry): seq<string> {
    [e.id, e.name, base64(e.thumbnail)]
  }

  function ListResponseElems(nodes: seq<ListEntry>, base64: seq<Byte> -> string): seq<string> {
    ["list"] + FlatMap(nodes, e => NodeTriple(base64, e))
  }

  /** `getTurnQueueBase`. */
  function TurnQueueBase(turnTime: nat, users: seq<string>): seq<string> {
    ["turn", NatToString(turnTime), NatToString(|users|)] + users
  }

  function TurnQueueWaitingElems(turnTime: nat, users: seq<string>, waitTime: nat): seq<string> {
    TurnQueueBase(turnTime, users) + [NatToString(waitTime)]
  }

  function ScreenUpdateElems(rect: ScreenRect, base64: seq<Byte> -> string): seq<string> {
    ["png", "0", "0", NatToString(rect.x), NatToString(rect.y), base64(rect.data)]
  }

  /** The opcode (first element) of each outbound kind; audio has none,
      since the text variant sends nothing for it. */
  function Opcode(m: Message): string
    requires !m.AudioOpus?
  {
    match m
    case Auth(_) => "auth"
    case Nop => "nop"
    case Sync(_) => "sync"
    case Capabilities(_) => "cap"
    case ConnectFailResponse => "connect"
    case ConnectOKResponse(_) => "connect"
    case LoginResponse(_, _) => "login"
    case AdminLoginResponse(_, _) => "admin"
    case AdminMonitorResponse(_) => "admin"
    case AdminIPResponse(_, _) => "admin"
    case ChatMessage(_, _) => "chat"
    case ChatHistory(_) => "chat"
    case AddUser(_) => "adduser"
    case RemUser(_) => "remuser"
    case Flag(_) => "flag"
    case SelfRename(_, _, _) => "rename"
    case Rename(_, _, _) => "rename"
    case ListResponse(_) => "list"
    case VoteStarted => "vote"
    case VoteStats(_, _, _) => "vote"
    case VoteEnded => "vote"
    case VoteCooldown(_) => "vote"
    case TurnQueue(_, _) => "turn"
    case TurnQueueWaiting(_, _, _) => "turn"
    case ScreenResize(_, _) => "size"
    case ScreenUpdate(_, _) => "png"
  }

  /** The text variant's senders, each as the items it hands the connection. */
  function GuacamoleSend(m: Message, env: Env): seq<Outbound> {
    match m
    case Auth(server) => [Text(AuthElems(server))]
    case Nop => [Text(["nop"])]
    case Sync(time) => [Text(SyncElems(time))]
    case Capabilities(caps) => [Text(CapabilitiesElems(caps))]
    case ConnectFailResponse => [Text(["connect", "0"])]
    case ConnectOKResponse(votes) => [Text(ConnectOKElems(votes))]
    case LoginResponse(ok, message) => [Text(LoginResponseElems(ok, message))]
    case AdminLoginResponse(ok, perms) => [Text(AdminLoginResponseElems(ok, perms))]
    case AdminMonitorResponse(output) => [Text(["admin", "2", output])]
    case AdminIPResponse(username, ip) => [Text(["admin", "19", username, ip])]
    case ChatMessage(username, message) => [Text(["chat", username, message])]
    case ChatHistory(history) => [Text(ChatHistoryElems(history))]
    case AddUser(added) => [Text(AddUserElems(added))]
    case RemUser(removed) => [Text(RemUserElems(removed))]
    case Flag(flags) => [Text(FlagElems(flags))]
    case SelfRename(status, newUsername, _) => [Text(["rename", "0", NatToString(status), newUsername])]
    case Rename(oldUsername, newUsername, _) => [Text(["rename", "1", oldUsername, newUsername])]
    case ListResponse(nodes) => [Text(ListResponseElems(nodes, env.base64))]
    case VoteStarted => [Text(["vote", "0"])]
    case VoteStats(msLeft, nrYes, nrNo) =>
      [Text(["vote", "1", NatToString(msLeft), NatToString(nrYes), NatToString(nrNo)])]
    case VoteEnded => [Text(["vote", "2"])]
    case VoteCooldown(ms) => [Text(["vote", "3", NatToString(ms)])]
    case TurnQueue(turnTime, users) => [Text(TurnQueueBase(turnTime, users))]
    case TurnQueueWaiting(turnTime, users, waitTime) => [Text(TurnQueueWaitingElems(turnTime, users, waitTime))]
    case ScreenResize(width, height) => [Text(["size", "0", NatToString(width), NatToString(height)])]
    case ScreenUpdate(_, rect) => [Text(ScreenUpdateElems(rect, env.base64)), Text(SyncElems(env.now))]
    case AudioOpus(_) => []
  }

  /** The text variant sends nothing for audio, two text lists (the image
      and a `sync` at the current time) for a screen update, and exactly one
      text list for every other kind, opening with that kind's opcode. */
  lemma GuacamoleSendShape(m: Message, env: Env)
    ensures var out := GuacamoleSend(m, env);
            (m.AudioOpus? <==> out == []) &&
            (m.ScreenUpdate? <==> |out| == 2) &&
            |out| <= 2 &&
            (forall k :: 0 <= k < |out| ==> out[k].Text? && out[k].elems != []) &&
            (out != [] ==> out[0].elems[0] == Opcode(m)) &&
            (|out| == 2 ==> out[1] == Text(SyncElems(env.now)))
  {
  }

  // ---------------------------------------------------------------------
  // The senders that build their list with a loop

  method BuildChatHistory(history: seq<ChatEntry>) returns (arr: seq<string>)
    ensures arr == ChatHistoryElems(history)
  {
    arr := ["chat"];
    for i := 0 to |history|
      invariant arr == ["chat"] + FlatMap(history[..i], ChatPair)
    {
      assert history[..i + 1] == history[..i] + [history[i]];
      FlatMapSnoc(history[..i], history[i], ChatPair);
      arr := arr + [history[i].user, history[i].msg];
    }
    assert history[..|history|] == history;
  }

  method BuildAddUser(added: seq<UserEntry>) returns (arr: seq<string>)
    ensures arr == AddUserElems(added)
  {
    arr := ["adduser", NatToString(|added|)];
    for i := 0 to |added|
      invariant arr == ["adduser", NatToString(|added|)] + FlatMap(added[..i], UserPair)
    {
      assert added[..i + 1] == added[..i] + [added[i]];
      FlatMapSnoc(added[..i], added[i], UserPair);
      arr := arr + [added[i].username];
      arr := arr + [NatToString(added[i].rank)];
    }
    assert added[..|added|] == added;
  }

  method BuildRemUser(removed: seq<string>) returns (arr: seq<string>)
    ensures arr == RemUserElems(removed)
  {
    arr := ["remuser", NatToString(|removed|)];
    for i := 0 to |removed|
      invariant arr == ["remuser", NatToString(|removed|)] + removed[..i]
    {
      assert removed[..i + 1] == removed[..i] + [removed[i]];
      arr := arr + [removed[i]];
    }
    assert removed[..|removed|] == removed;
  }

  method BuildListResponse(nodes: seq<ListEntry>, base64: seq<Byte> -> string) returns (arr: seq<string>)
    ensures arr == ListResponseElems(nodes, base64)
  {
    var triple := e => NodeTriple(base64, e);
    arr := ["list"];
    for i := 0 to |nodes|
      invariant arr == ["list"] + FlatMap(nodes[..i], triple)
    {
      assert nodes[..i + 1] == nodes[..i] + [nodes[i]];
      FlatMapSnoc(nodes[..i], nodes[i], triple);
      arr := arr + [nodes[i].id];
      arr := arr + [nodes[i].name];
      arr := arr + [base64(nodes[i].thumbnail)];
    }
    assert nodes[..|nodes|] == nodes;
  }

  // ---------------------------------------------------------------------
  // Shapes of the built lists

  /** The chat history is `chat` followed by one name/message pair per
      entry, in order. */
  lemma ChatHistoryShape(history: seq<ChatEntry>)
    ensures var r := ChatHistoryElems(history);
            |r| == 1 + 2 * |history| && r[0] == "chat" &&
            forall i :: 0 <= i < |history| ==> r[1 + 2 * i] == history[i].user && r[2 + 2 * i] == history[i].msg
  {
    var r := ChatHistoryElems(history);
    FlatMapLength(history, ChatPair, 2);
    forall i | 0 <= i < |history|
      ensures r[1 + 2 * i] == history[i].user && r[2 + 2 * i] == history[i].msg
    {
      FlatMapAt(history, ChatPair, 2, i, 0);
      FlatMapAt(history, ChatPair, 2, i, 1);
    }
  }

  /** `adduser` carries a count n and then exactly n name/rank pairs. */
  lemma AddUserShape(added: seq<UserEntry>)
    ensures var r := AddUserElems(added);
            |r| >= 2 && r[0] == "adduser" && AllDigits(r[1]) &&
            DigitsToNat(r[1]) == |added| && |r| == 2 + 2 * DigitsToNat(r[1]) &&
            forall i :: 0 <= i < |added| ==>
              r[2 + 2 * i] == added[i].username && r[3 + 2 * i] == NatToString(added[i].rank)
  {
    var r := AddUserElems(added);
    DigitsToNatOfNatToString(|added|);
    FlatMapLength(added, UserPair, 2);
    forall i | 0 <= i < |added|
      ensures r[2 + 2 * i] == added[i].username && r[3 + 2 * i] == NatToString(added[i].rank)
    {
      FlatMapAt(added, UserPair, 2, i, 0);
      FlatMapAt(added, UserPair, 2, i, 1);
    }
  }

  /** `remuser` carries a count n and then exactly the n names. */
  lemma RemUserShape(removed: seq<string>)
    ensures var r := RemUserElems(removed);
            |r| >= 2 && r[0] == "remuser" && AllDigits(r[1]) &&
            |r| == 2 + DigitsToNat(r[1]) && r[2..] == removed
  {
    DigitsToNatOfNatToString(|removed|);
  }

  /** `list` is one id/name/thumbnail triple per node, the thumbnail in
      Base64. */
  lemma ListResponseShape(nodes: seq<ListEntry>, base64: seq<Byte> -> string)
    ensures var r := ListResponseElems(nodes, base64);
            |r| == 1 + 3 * |nodes| && r[0] == "list" &&
            forall i :: 0 <= i < |nodes| ==>
              r[1 + 3 * i] == nodes[i].id && r[2 + 3 * i] == nodes[i].name &&
              r[3 + 3 * i] == base64(nodes[i].thumbnail)
  {
    var r := ListResponseElems(nodes, base64);
    var triple := e => NodeTriple(base64, e);
    FlatMapLength(nodes, triple, 3);
    forall i | 0 <= i < |nodes|
      ensures r[1 + 3 * i] == nodes[i].id && r[2 + 3 * i] == nodes[i].name &&
              r[3 + 3 * i] == base64(nodes[i].thumbnail)
    {
      FlatMapAt(nodes, triple, 3, i, 0);
      FlatMapAt(nodes, triple, 3, i, 1);
      FlatMapAt(nodes, triple, 3, i, 2);
    }
  }

  /** `flag` is one name/country pair per entry. */
  lemma FlagShape(flags: seq<FlagEntry>)
    ensures var r := FlagElems(flags);
            |r| == 1 + 2 * |flags| && r[0] == "flag" &&
            forall i :: 0 <= i < |flags| ==>
              r[1 + 2 * i] == flags[i].username && r[2 + 2 * i] == flags[i].countryCode
  {
    var r := FlagElems(flags);
    FlatMapLength(flags, FlagPair, 2);
    forall i | 0 <= i < |flags|
      ensures r[1 + 2 * i] == flags[i].username && r[2 + 2 * i] == flags[i].countryCode
    {
      FlatMapAt(flags, FlagPair, 2, i, 0);
      FlatMapAt(flags, FlagPair, 2, i, 1);
    }
  }

  /** The turn queue is `turn`, the turn time, a count n and the n users;
      the waiting variant is the same list with the wait time appended. */
  lemma TurnQueueShape(turnTime: nat, users: seq<string>, waitTime: nat)
    ensures var r := TurnQueueBase(turnTime, users);
            |r| >= 3 && r[0] == "turn" && AllDigits(r[1]) && AllDigits(r[2]) &&
            DigitsToNat(r[1]) == turnTime && |r| == 3 + DigitsToNat(r[2]) && r[3..] == users
    ensures var w := TurnQueueWaitingElems(turnTime, users, waitTime);
            w[..|w| - 1] == TurnQueueBase(turnTime, users) &&
            AllDigits(w[|w| - 1]) && DigitsToNat(w[|w| - 1]) == waitTime
  {
    DigitsToNatOfNatToString(turnTime);
    DigitsToNatOfNatToString(|users|);
    DigitsToNatOfNatToString(waitTime);
  }

  /** The numbers in the vote-status and vote-cooldown lists read back,
      from their positions, as the numbers given. */
  lemma VoteNumbersReadBack(msLeft: nat, nrYes: nat, nrNo: nat, ms: nat, env: Env)
    ensures var out := GuacamoleSend(VoteStats(msLeft, nrYes, nrNo), env);
            |out| == 1 && var e := out[0].elems;
            |e| == 5 && e[..2] == ["vote", "1"] && AllDigits(e[2]) && AllDigits(e[3]) && AllDigits(e[4]) &&
            DigitsToNat(e[2]) == msLeft && DigitsToNat(e[3]) == nrYes && DigitsToNat(e[4]) == nrNo
    ensures var out := GuacamoleSend(VoteCooldown(ms), env);
            |out| == 1 && var e := out[0].elems;
            |e| == 3 && e[..2] == ["vote", "3"] && AllDigits(e[2]) && DigitsToNat(e[2]) == ms
  {
    DigitsToNatOfNatToString(msLeft);
    DigitsToNatOfNatToString(nrYes);
    DigitsToNatOfNatToString(nrNo);
    DigitsToNatOfNatToString(ms);
  }

  /** The sizes in `size` and the coordinates in `png` read back as given;
      the `sync` after a screen update carries the current time. */
  lemma ScreenNumbersReadBack(width: nat, height: nat, buffer: seq<Byte>, rect: ScreenRect, env: Env)
    ensures var out := GuacamoleSend(ScreenResize(width, height), env);
            |out| == 1 && var e := out[0].elems;
            |e| == 4 && e[..2] == ["size", "0"] && AllDigits(e[2]) && AllDigits(e[3]) &&
            DigitsToNat(e[2]) == width && DigitsToNat(e[3]) == height
    ensures var out := GuacamoleSend(ScreenUpdate(buffer, rect), env);
            |out| == 2 && var e := out[0].elems; var t := out[1].elems;
            |e| == 6 && e[..3] == ["png", "0", "0"] && AllDigits(e[3]) && AllDigits(e[4]) &&
            DigitsToNat(e[3]) == rect.x && DigitsToNat(e[4]) == rect.y && e[5] == env.base64(rect.data) &&
            |t| == 2 && t[0] == "sync" && AllDigits(t[1]) && DigitsToNat(t[1]) == env.now
  {
    DigitsToNatOfNatToString(width);
    DigitsToNatOfNatToString(height);
    DigitsToNatOfNatToString(rect.x);
    DigitsToNatOfNatToString(rect.y);
    DigitsToNatOfNatToString(env.now);
  }

  /** The self-rename reply carries the status code, which reads back as
      given, and the new name; the rank is not sent. */
  lemma SelfRenameReadBack(status: nat, newUsername: string, rank: nat, env: Env)
    ensures var out := GuacamoleSend(SelfRename(status, newUsername, rank), env);
            |out| == 1 && var e := out[0].elems;
            |e| == 4 && e[..2] == ["rename", "0"] && AllDigits(e[2]) && DigitsToNat(e[2]) == status &&
            e[3] == newUsername
  {
    DigitsToNatOfNatToString(status);
  }

  /** The successful connect reply reports in its fourth element whether
      votes are enabled; the login reply is `login 1` on success and
      `login 0 <message>` on failure. */
  lemma ConnectAndLoginShape(votes: bool, ok: bool, message: string)
    ensures var r := ConnectOKElems(votes);
            |r| == 5 && r[..3] == ["connect", "1", "1"] && r[4] == "0" &&
            r[3] in {"0", "1"} && (r[3] == "1" <==> votes)
    ensures var r := LoginResponseElems(ok, message);
            r[0] == "login" && 2 <= |r| <= 3 &&
            (r[1] == "1" <==> ok) && (r[1] == "0" <==> !ok) &&
            (|r| == 3 <==> !ok) && (!ok ==> r[2] == message)
  {
  }

  /** The admin login reply: `admin 0 0` on failure, `admin 0 1` on success
      without a permission mask, `admin 0 3 <mask>` with one. */
  lemma AdminLoginResponseShape(ok: bool, modPerms: Option<nat>)
    ensures var r := AdminLoginResponseElems(ok, modPerms);
            |r| >= 3 && r[..2] == ["admin", "0"] &&
            (r[2] == "0" <==> !ok) &&
            (r[2] == "1" <==> ok && modPerms.None?) &&
            (r[2] == "3" <==> ok && modPerms.Some?) &&
            (|r| == 4 <==> ok && modPerms.Some?) &&
            (|r| == 4 ==> AllDigits(r[3]) && DigitsToNat(r[3]) == modPerms.value)
  {
    if ok && modPerms.Some? {
      DigitsToNatOfNatToString(modPerms.value);
    }
  }
}
