/** The binary ("binary1") protocol variant. It inherits every sender of the
    text variant except screen-frame and audio delivery, which it replaces by
    a self-describing binary record sent as one binary frame. */
module BinRectsProtocol {
  import opened Wrappers
  import opened GuacamoleOutbound

  /** The binary variant's senders. `socketOpen` is whether the user's
      socket is present and open, which only audio delivery looks at. */
  function BinRectsSend(m: Message, env: Env, socketOpen: bool): seq<Outbound> {
    match m
    case ScreenUpdate(buffer, rect) => [Binary(FrameRec(buffer, rect))]
    case AudioOpus(packet) => if !socketOpen then [] else [Binary(AudioRec(packet))]
    case _ => GuacamoleSend(m, env)
  }

  /** A screen update is exactly one `frame` record carrying the buffer and
      the rectangle as given (no Base64), with no `sync` after it; the text
      variant sends the Base64 `png` list at the rectangle's position and
      then `sync` at the current time. */
  lemma ScreenUpdateVariants(buffer: seq<Byte>, rect: ScreenRect, env: Env, socketOpen: bool)
    ensures var out := BinRectsSend(ScreenUpdate(buffer, rect), env, socketOpen);
            |out| == 1 && out[0].Binary? && out[0].rec.FrameRec? &&
            out[0].rec.frame == buffer && out[0].rec.rect == rect
    ensures GuacamoleSend(ScreenUpdate(buffer, rect), env) ==
              [Text(["png", "0", "0", Decimal.NatToString(rect.x), Decimal.NatToString(rect.y),
                     env.base64(rect.data)]),
               Text(["sync", Decimal.NatToString(env.now)])]
  {
  }

  /** Binary audio is dropped when the socket is not open and is otherwise
      exactly one `audioOpus` record with the packet unchanged; the text
      variant sends nothing for audio whatever the state. */
  lemma AudioVariants(packet: seq<Byte>, env: Env, socketOpen: bool)
    ensures !socketOpen ==> BinRectsSend(AudioOpus(packet), env, socketOpen) == []
    ensures socketOpen ==> BinRectsSend(AudioOpus(packet), env, socketOpen) == [Binary(AudioRec(packet))]
    ensures GuacamoleSend(AudioOpus(packet), env) == []
  {
  }

  /** Every other kind is sent identically by both variants, and then only
      as text. */
  lemma InheritedSenders(m: Message, env: Env, socketOpen: bool)
    requires !m.ScreenUpdate? && !m.AudioOpus?
    ensures BinRectsSend(m, env, socketOpen) == GuacamoleSend(m, env)
    ensures forall o :: o in BinRectsSend(m, env, socketOpen) ==> o.Text?
  {
    GuacamoleSendShape(m, env);
  }

  /** Binary records appear only for the two replaced kinds, and the
      variants never differ on any other kind. */
  lemma VariantsDifferOnlyOnPayloads(m: Message, env: Env, socketOpen: bool)
    ensures BinRectsSend(m, env, socketOpen) != GuacamoleSend(m, env) ==> m.ScreenUpdate? || (m.AudioOpus? && socketOpen)
    ensures (exists k :: 0 <= k < |BinRectsSend(m, env, socketOpen)| && BinRectsSend(m, env, socketOpen)[k].Binary?) <==>
              m.ScreenUpdate? || (m.AudioOpus? && socketOpen)
  {
    GuacamoleSendShape(m, env);
    var out := BinRectsSend(m, env, socketOpen);
    if m.ScreenUpdate? || (m.AudioOpus? && socketOpen) {
      assert out[0].Binary?;
    }
  }
}
