# CollabVM protocol core, modelled in Dafny

This project models three pieces of the CollabVM server (`cvmts`):

- **Inbound dispatch of the text ("guacamole") protocol.** `processMessage`
  takes the element list of one decoded frame. It picks a handler by the
  first element (the opcode), and for `admin` also by the second element
  (the sub-opcode). It checks element counts and `"0"`/`"1"` flags, then
  accepts (`true`) or rejects (`false`) the frame. The model is
  `GuacamoleInbound.ProcessMessage`. It returns the accept/reject flag
  together with the handler calls made, in order.
  - The model keeps the missing `break` after admin sub-opcode `12` (ban),
    so control falls into `13` (force vote). One frame can therefore make
    two calls, or make a ban call and then be rejected.
  - `parseInt` is a parameter that returns a number or NaN. Because it never
    returns `undefined`, the source's `== undefined` checks never fire. The
    only numeric check that has an effect is the key `down` flag.
- **Outbound builders of both protocol variants.** Each text-variant sender
  turns its typed arguments into the element list it hands to the wire
  encoder (`GuacamoleOutbound`). The loop-built lists (chat history,
  `adduser`, `remuser`, `list`) are also written as methods with loops. Each
  method is proved equal to the list function it implements. The binary
  variant (`BinRectsProtocol`) inherits every sender except screen-frame and
  audio delivery. It replaces those two with a binary record.
- **Frame encoder** (`FrameEncoding`). It computes where a changed rectangle
  starts in the RGBA canvas and builds the argument records for the
  external JPEG encoders. It also holds the process-wide JPEG quality, as a
  class whose one field `SetQuality` updates.

Files: `wrappers.dfy` (Option, Byte), `decimal.dfy` (`toString` of
naturals and its inverse), `guacamole_inbound.dfy`,
`guacamole_outbound.dfy`, `binrects.dfy`, `frame_encoder.dfy`.

The source's two `sendScreenUpdate` declarations take different
parameters. The text one takes `(user, rect)` and the binary one takes
`(user, buffer, rect)`. The message `ScreenUpdate(buffer, rect)` carries
both, and each variant reads only what its own declaration reads. The text
variant sends `rect.data` and the binary variant sends `buffer`.

## Model

| member | source | states |
|---|---|---|
| `GuacamoleInbound.ProcessMessage` | cvmts/src/protocol/GuacamoleProtocol.ts:106-196 | An empty list is rejected with no call. An unrecognised opcode is accepted with no call. There are at most two calls, and two only for a 3-element admin `12`. A rejected frame makes a call only for admin `12` with more than 3 elements, and that call is the ban. |
| `GuacamoleInbound.ProcessAdmin` | cvmts/src/protocol/GuacamoleProtocol.ts:8-104 | An unknown sub-opcode is accepted with no call. A rejection makes no call, except that admin `12` with more than 3 elements rejects after its ban call. Two calls happen only for `12` with exactly 3 elements. |
| `GuacamoleInbound.ArityOf` | cvmts/src/protocol/GuacamoleProtocol.ts:111-192 | The element-count table is defined exactly for the recognised opcodes. |
| `GuacamoleInbound.WrongArityRejected` | cvmts/src/protocol/GuacamoleProtocol.ts:115-192 | Any recognised opcode whose element count does not fit its table entry is rejected with no handler call. |
| `GuacamoleInbound.ArityDecides` | cvmts/src/protocol/GuacamoleProtocol.ts:112-192 | For every opcode except `key` and `admin`, the frame is accepted iff the count fits. An accepted frame makes exactly one call and a rejected one makes none. The call goes to that opcode's handler. Its string arguments are the elements after the opcode, in order: all of them for `cap`, `login`, `connect` and `chat`, only the second for `view` and a named `rename`, and none otherwise. |
| `GuacamoleInbound.NumericArgumentsNeverReject` | cvmts/src/protocol/GuacamoleProtocol.ts:133-183 | `vote`, `view` and `mouse` with the right count are always accepted and pass the parsed values, NaN included. |
| `GuacamoleInbound.CapabilitiesPassTail` | cvmts/src/protocol/GuacamoleProtocol.ts:115-118 | `cap` with at least 2 elements passes every element after the opcode, in order. |
| `GuacamoleInbound.RenameHasNoArityCheck` | cvmts/src/protocol/GuacamoleProtocol.ts:142-144 | `rename` is accepted at any length. The name is absent iff there is no second element, and otherwise it is that element. |
| `GuacamoleInbound.TurnForfeit` | cvmts/src/protocol/GuacamoleProtocol.ts:149-160 | `turn` is accepted iff it has at most 2 elements. The one call has forfeit = true iff the second element is exactly `"0"`. A rejected `turn` makes no call. |
| `GuacamoleInbound.KeyDownFlag` | cvmts/src/protocol/GuacamoleProtocol.ts:171-177 | A 3-element `key` is accepted iff `down` parses to 0 or 1. The key is reported pressed iff it parsed to 1. |
| `GuacamoleInbound.AdminSubDispatch` | cvmts/src/protocol/GuacamoleProtocol.ts:185-187 | `admin` with fewer than 2 elements is rejected. An unknown sub-opcode is accepted with no call. `20` and `23` are accepted at any length with their one call. |
| `GuacamoleInbound.AdminFlags` | cvmts/src/protocol/GuacamoleProtocol.ts:37-97 | `14`, `22` and `24` are accepted iff the count is right and the flag is `"0"` or `"1"`. For `14`, `"0"` means a temporary mute. For `22` and `24`, `"1"` means enabled or shown. A rejection makes no call. |
| `GuacamoleInbound.AdminBanFallsThrough` | cvmts/src/protocol/GuacamoleProtocol.ts:26-36 | `12` with fewer than 3 elements is rejected with no call. With exactly 3 it makes the ban call, then the force-vote call with the parsed name, and accepts. With more than 3 it makes the ban call and rejects. |
| `GuacamoleInbound.AdminArity` | cvmts/src/protocol/GuacamoleProtocol.ts:10-101 | Every other admin sub-opcode is accepted iff it has exactly 3 elements (4 for `5` and `18`). It then makes one call, to the handler of that sub-opcode. The call's string arguments are the third and fourth elements, in that order. For `13` the call is the force vote with the parsed third element. |
| `GuacamoleInbound.OpcodeOf` | cvmts/src/protocol/GuacamoleProtocol.ts:108-195 | Each handler method is answered by exactly one recognised opcode: the `case` whose branch calls it. Every admin handler is answered by `admin`. `ArityDecides` and `CallsFollowOpcode` compare the dispatcher against this table. |
| `GuacamoleInbound.AdminOpcodeOf` | cvmts/src/protocol/GuacamoleProtocol.ts:9-103 | Each admin handler method is answered by exactly one recognised sub-opcode. Non-admin handlers have none. `AdminArity` and the two call-routing lemmas compare the admin dispatcher against this table. |
| `GuacamoleInbound.CallsFollowOpcode` | cvmts/src/protocol/GuacamoleProtocol.ts:106-196 | Every call a frame makes goes to the handler of the frame's opcode. For `admin`, every call goes to the handler of the sub-opcode, except the second call of `12`, which is the force vote of `13`. |
| `GuacamoleInbound.AdminCallsFollowSubOpcode` | cvmts/src/protocol/GuacamoleProtocol.ts:8-104 | Every call of the admin dispatcher goes to an admin handler of the frame's sub-opcode. The one exception is the force vote that `12` falls into. |
| `Decimal.NatToString` | cvmts/src/protocol/GuacamoleProtocol.ts:211-213 | `toString()` of a natural gives a non-empty string of digits with no leading zero. |
| `Decimal.DigitsToNatOfNatToString` | cvmts/src/protocol/GuacamoleProtocol.ts:271 | Reading back the rendered digits gives the original number. |
| `Decimal.NatToStringInjective` | cvmts/src/protocol/GuacamoleProtocol.ts:271 | Distinct numbers are rendered as distinct strings. |
| `GuacamoleOutbound.GuacamoleSendShape` | cvmts/src/protocol/GuacamoleProtocol.ts:198-358 | Text-variant audio sends nothing. A screen update sends two text lists, the second being `sync` at the current time. Every other kind sends exactly one non-empty text list that starts with its opcode. |
| `GuacamoleOutbound.GuacamoleSend` | cvmts/src/protocol/GuacamoleProtocol.ts:198-358 | Defined as one case per `send*` method: the text items that sender hands to `user.sendMsg`. Its properties are stated by `GuacamoleSendShape` and the shape and read-back lemmas below. |
| `GuacamoleOutbound.AuthElems` | cvmts/src/protocol/GuacamoleProtocol.ts:203-205 | Defined as `auth` and the server. |
| `GuacamoleOutbound.SyncElems` | cvmts/src/protocol/GuacamoleProtocol.ts:211-213 | Defined as `sync` and the time in decimal. `ScreenNumbersReadBack` shows the time reads back. |
| `GuacamoleOutbound.CapabilitiesElems` | cvmts/src/protocol/GuacamoleProtocol.ts:215-218 | Defined as `cap` followed by the capabilities in order. |
| `GuacamoleOutbound.ConnectOKElems` | cvmts/src/protocol/GuacamoleProtocol.ts:224-226 | Defined as `connect 1 1 <votes> 0`. Its vote flag is stated by `ConnectAndLoginShape`. |
| `GuacamoleOutbound.LoginResponseElems` | cvmts/src/protocol/GuacamoleProtocol.ts:228-235 | Defined as the success or failure form of the login reply. Both forms are stated by `ConnectAndLoginShape`. |
| `GuacamoleOutbound.ConnectAndLoginShape` | cvmts/src/protocol/GuacamoleProtocol.ts:224-235 | The connect reply has 5 elements, and its fourth is `1` iff votes are enabled (`0` otherwise). The login reply is `login 1` iff the login succeeded. A failed login is `login 0` followed by the message. |
| `GuacamoleOutbound.AdminLoginResponseElems` | cvmts/src/protocol/GuacamoleProtocol.ts:237-247 | Defined as the three forms of the admin login reply. They are stated by `AdminLoginResponseShape`. |
| `GuacamoleOutbound.ChatHistoryElems` | cvmts/src/protocol/GuacamoleProtocol.ts:261-268 | Defined as `chat` followed by the flattened name/message pairs. Its layout is stated by `ChatHistoryShape`, and `BuildChatHistory` is proved equal to it. |
| `GuacamoleOutbound.AddUserElems` | cvmts/src/protocol/GuacamoleProtocol.ts:270-278 | Defined as `adduser`, the count and the flattened name/rank pairs. Its layout is stated by `AddUserShape`, and `BuildAddUser` is proved equal to it. |
| `GuacamoleOutbound.RemUserElems` | cvmts/src/protocol/GuacamoleProtocol.ts:280-288 | Defined as `remuser`, the count and the names. Its layout is stated by `RemUserShape`, and `BuildRemUser` is proved equal to it. |
| `GuacamoleOutbound.FlagElems` | cvmts/src/protocol/GuacamoleProtocol.ts:290-295 | Defined as `flag` followed by the flattened name/country pairs. Its layout is stated by `FlagShape`. |
| `GuacamoleOutbound.ListResponseElems` | cvmts/src/protocol/GuacamoleProtocol.ts:305-314 | Defined as `list` followed by the flattened id/name/thumbnail triples. Its layout is stated by `ListResponseShape`, and `BuildListResponse` is proved equal to it. |
| `GuacamoleOutbound.TurnQueueBase` | cvmts/src/protocol/GuacamoleProtocol.ts:332-334 | `getTurnQueueBase`, defined as `turn`, the time, the count and the users. Its layout is stated by `TurnQueueShape`. |
| `GuacamoleOutbound.TurnQueueWaitingElems` | cvmts/src/protocol/GuacamoleProtocol.ts:340-344 | Defined as the base list with the wait time appended. This is also stated by `TurnQueueShape`. |
| `GuacamoleOutbound.ScreenUpdateElems` | cvmts/src/protocol/GuacamoleProtocol.ts:350-351 | Defined as `png 0 0 x y base64(data)`. Its numbers are stated by `ScreenNumbersReadBack`. |
| `GuacamoleOutbound.BuildChatHistory` | cvmts/src/protocol/GuacamoleProtocol.ts:261-268 | The push loop builds exactly `chat` followed by each entry's name and message. |
| `GuacamoleOutbound.ChatHistoryShape` | cvmts/src/protocol/GuacamoleProtocol.ts:261-268 | The chat history list has 1 + 2·n elements. Entry i's name is at 1+2i and its message at 2+2i. |
| `GuacamoleOutbound.BuildAddUser` | cvmts/src/protocol/GuacamoleProtocol.ts:270-278 | The push loop builds exactly `adduser`, the count, then each user's name and rank. |
| `GuacamoleOutbound.AddUserShape` | cvmts/src/protocol/GuacamoleProtocol.ts:270-278 | The count element reads back as n, and exactly n name/rank pairs follow, in order. |
| `GuacamoleOutbound.BuildRemUser` | cvmts/src/protocol/GuacamoleProtocol.ts:280-288 | The push loop builds exactly `remuser`, the count, then the names. |
| `GuacamoleOutbound.RemUserShape` | cvmts/src/protocol/GuacamoleProtocol.ts:280-288 | The count element reads back as the number of names that follow, and those names are the given ones. |
| `GuacamoleOutbound.FlagShape` | cvmts/src/protocol/GuacamoleProtocol.ts:290-295 | The `flag` list holds one name/country pair per entry, in order, with 1 + 2·n elements. |
| `GuacamoleOutbound.BuildListResponse` | cvmts/src/protocol/GuacamoleProtocol.ts:305-314 | The push loop builds exactly `list` followed by each node's id, name and Base64 thumbnail. |
| `GuacamoleOutbound.ListResponseShape` | cvmts/src/protocol/GuacamoleProtocol.ts:305-314 | The `list` reply has 1 + 3·n elements. Node i's id, name and Base64 thumbnail are at 1+3i, 2+3i and 3+3i. |
| `GuacamoleOutbound.TurnQueueShape` | cvmts/src/protocol/GuacamoleProtocol.ts:332-344 | The turn list is `turn`, the turn time, a count n and then the n users. The time and the count read back as given. The waiting variant is that list with the wait time appended, and it reads back too. |
| `GuacamoleOutbound.AdminLoginResponseShape` | cvmts/src/protocol/GuacamoleProtocol.ts:237-247 | The reply starts `admin 0`. The third element is `0` iff the login failed, `1` iff it succeeded without permissions, and `3` iff it succeeded with permissions. Only in that last case does a fourth element follow, and it reads back as the permission mask. |
| `GuacamoleOutbound.VoteNumbersReadBack` | cvmts/src/protocol/GuacamoleProtocol.ts:320-330 | `vote 1` carries milliseconds left, yes votes and no votes. `vote 3` carries the cooldown. Each one reads back as given. |
| `GuacamoleOutbound.ScreenNumbersReadBack` | cvmts/src/protocol/GuacamoleProtocol.ts:346-353 | `size` carries width and height. `png 0 0` carries x, y and the Base64 payload. The `sync` that follows carries the current time. Each one reads back as given. |
| `GuacamoleOutbound.SelfRenameReadBack` | cvmts/src/protocol/GuacamoleProtocol.ts:297-299 | `rename 0` carries the status code, which reads back as given, and the new name. The rank is not sent. |
| `BinRectsProtocol.ScreenUpdateVariants` | cvmts/src/protocol/BinRectsProtocol.ts:9-16 | The binary screen update is exactly one `frame` record carrying the buffer and rect unchanged, with no Base64 and no `sync`. The text variant sends `png 0 0 x y base64(data)` and then `sync now`. |
| `BinRectsProtocol.AudioVariants` | cvmts/src/protocol/BinRectsProtocol.ts:18-32 | Binary audio sends nothing when the socket is not open. Otherwise it sends exactly one `audioOpus` record with the packet unchanged. Text audio sends nothing. |
| `BinRectsProtocol.InheritedSenders` | cvmts/src/protocol/BinRectsProtocol.ts:8 | For every other message kind, both variants send identical output, and all of it is text. |
| `BinRectsProtocol.VariantsDifferOnlyOnPayloads` | cvmts/src/protocol/BinRectsProtocol.ts:8-33 | The variants differ only on screen updates and on audio to an open socket. A binary record appears exactly in those two cases. |
| `BinRectsProtocol.BinRectsSend` | cvmts/src/protocol/BinRectsProtocol.ts:8-33 | Defined as the two overridden senders, with every other kind delegated to the text variant. Its properties are stated by the four `BinRectsProtocol` lemmas above. |
| `FrameEncoding.SliceOffsetAligned` | cvmts/src/FrameEncoder.ts:24 | The slice offset is a multiple of 4, so it falls on a pixel boundary. |
| `FrameEncoding.SliceOffsetIsPixel` | cvmts/src/FrameEncoder.ts:24 | When x is inside a row, dividing the offset back out in row-major order gives exactly (x, y). |
| `FrameEncoding.SliceOffsetInCanvas` | cvmts/src/FrameEncoder.ts:24-29 | If x < width and y < height, then offset + 4 ≤ 4·width·height. |
| `FrameEncoding.SliceOffset` | cvmts/src/FrameEncoder.ts:24 | Defined as `(y·width + x)·4`. It is stated by `SliceOffsetAligned`, `SliceOffsetIsPixel` and `SliceOffsetInCanvas`. |
| `FrameEncoding.Subarray` | cvmts/src/FrameEncoder.ts:29 | `subarray(start)` has the bytes from `start` to the end, in order, or none when `start` lies past the end. |
| `FrameEncoding.FrameEncoder.Encode` | cvmts/src/FrameEncoder.ts:23-32 | The request carries the rect's width and height, stride = display width, the current quality, and the canvas from the slice offset on. For an in-bounds rect over a full canvas, it starts with that pixel's 4 bytes. |
| `FrameEncoding.EncodeThumbnail` | cvmts/src/FrameEncoder.ts:34-43 | Every thumbnail request targets 400×300 at quality 75 and passes the source size and buffer through unchanged. |
| `FrameEncoding.FrameEncoder.constructor` | cvmts/src/FrameEncoder.ts:11 | The initial quality is the configured screen quality, or 30 when none is configured. |
| `FrameEncoding.FrameEncoder.SetQuality` | cvmts/src/FrameEncoder.ts:19-21 | After `SetQuality(q)` the stored quality is q, and `Encode` requests carry the stored quality. |

## Left out

- The wire codec (`cvm.guacDecode`, `cvm.guacEncode`, written in Rust) is not part of this model. The dispatcher's input is the element list after decoding, and a sender's output is the element list before encoding. A decode failure, or an exception it throws out of `processMessage`, is not modelled.
- Handler behaviour (turn queue, votes, permissions, rename rules) lives in code that is not part of this model. A handler is represented only by the calls made on it. The `user` argument passed to every handler and sender is left out.
- `parseInt` is a parameter, not JavaScript's definition. The properties hold whatever it returns, as long as it returns a number or NaN. `ParsedInt` has no `Infinity`, which `parseInt` returns for digit strings of more than about 308 digits. No accept or reject decision depends on that: a `key` whose `down` is `Infinity` is rejected either way. What it affects is the recorded argument of `OnVote`, `OnView`, `OnMouse`, `OnKey` (its keysym) and `OnAdminForceVote`.
- Base64 is a parameter (`Env.base64`). MessagePack serialisation of the binary records is not applied: the model's output is the record itself.
- `Date.now()` is the parameter `Env.now`. Whether the user exists and the socket is open is the boolean `socketOpen`.
- `user.sendMsg` and `socket.sendBinary` are modelled as the returned list of outbound items. Delivery is not modelled.
- The `try`/`catch` logging in the binary `sendAudioOpus` is not modelled.
- JavaScript numbers passed to senders are modelled as naturals. Negative and fractional values, and how they print, are not covered.
- Decimal.NatToString: matches `toString()` only for safe integers (at most 2^53 − 1). From 10^21 up JavaScript prints exponent notation such as `1e+21`. Above 2^53 a JavaScript number is not an exact integer. The model's naturals are unbounded and always print as plain digits.
- FrameEncoding.Size, FrameEncoding.Rect and FrameEncoding.FrameEncoder.jpegQuality: these are JavaScript numbers, modelled as `nat` and `int`. Fractional, negative, NaN and very large values are not covered. Neither is floating-point rounding in the offset arithmetic, which is exact only while the offset stays within 2^53.
- Rank and rename status are sent by their numeric enum values. Those enums are not part of this model, so the codes are taken as given.
- `sendLoginResponse` sends `message!` on failure. The model takes the message as a string and does not model an `undefined` there.
- JPEG encoding and resizing (`cvm.jpegEncode`, `cvm.jpegResizeEncode`) are external. Only their argument records are modelled, and the asynchronous `Promise` is dropped.
- The configuration file read when the frame encoder module loads is I/O. The configured quality is the constructor's `Option` parameter.
- Startup (`cvmts/src/index.ts`), configuration types (`cvmts/src/IConfig.ts`) and the H.264 encoder (`cvm-rs/src/h264_encoder.rs`, `cvm-rs/src/h264_js.rs`) are outside this model.
