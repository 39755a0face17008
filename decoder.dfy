/**
 * The raw-key decoder: one call reads one, two or three key codes from the
 * terminal reader and yields exactly one logical event. The reader is a
 * sequence of key codes; a read past its end yields -1, as a Reader does
 * at end of stream. The two terminal families differ in the escape
 * introducer ('[' = 91 versus 'O' = 79) and in the backspace code (127
 * versus 8).
 */
module Decoder {
  import opened Options
  import opened Events

  /** The event a call produced and how many reads it performed. */
  datatype Decoded = Decoded(event: Event, consumed: nat)

  const EndOfStream: int := -1
  const Escape: int := 27

  /** A code unit a terminal reader can deliver that is also a character:
      0..0xFFFF without the surrogate range. */
  predicate IsKeyCode(b: int) {
    0 <= b < 0xD800 || 0xE000 <= b < 0x1_0000
  }

  predicate IsKeyInput(bs: seq<int>) {
    forall i :: 0 <= i < |bs| ==> IsKeyCode(bs[i])
  }

  /** The i-th read of the reader: the key code, or -1 past the end. */
  function ReadAt(bs: seq<int>, i: nat): int {
    if i < |bs| then bs[i] else EndOfStream
  }

  function Introducer(p: Profile): int {
    if p.NewTerminal? then 91 else 79
  }

  function BackspaceCode(p: Profile): int {
    if p.NewTerminal? then 127 else 8
  }

  /** The first-byte codes with a fixed meaning in profile p. */
  predicate IsControlCode(p: Profile, b: int) {
    b == BackspaceCode(p) || b == 13 || b == 32 || b == 12 || b == Escape
  }

  /** The arrow selected by the final byte of a well-formed escape sequence. */
  function ArrowEvent(b: int): (e: Event)
    ensures e == NotSupportedChar <==> !(65 <= b <= 68)
  {
    if b == 65 then KeyPressUp
    else if b == 66 then KeyPressDown
    else if b == 67 then KeyPressRight
    else if b == 68 then KeyPressLeft
    else NotSupportedChar
  }

  /** The reads that follow an escape code: the introducer, then the arrow
      byte. A wrong introducer ends the sequence after one read. */
  function ReadEscValues(p: Profile, rest: seq<int>): (r: Decoded)
    ensures r.consumed == (if ReadAt(rest, 0) == Introducer(p) then 2 else 1)
    ensures r.event.CharInput? == false
  {
    if ReadAt(rest, 0) == Introducer(p) then Decoded(ArrowEvent(ReadAt(rest, 1)), 2)
    else Decoded(NotSupportedChar, 1)
  }

  /** One decoder call on the reader contents bs. */
  function HandleInteraction(p: Profile, bs: seq<int>): (r: Decoded)
    requires |bs| > 0 && IsKeyCode(bs[0])
    ensures 1 <= r.consumed <= 3
    ensures r.consumed > 1 <==> bs[0] == Escape
  {
    var c := bs[0];
    if c == BackspaceCode(p) then Decoded(KeyPressBackspace, 1)
    else if c == 13 then Decoded(KeyPressEnter, 1)
    else if c == 32 then Decoded(KeyPressSpace, 1)
    else if c == 12 then Decoded(ClearScreen, 1)
    else if c == Escape then
      var esc := ReadEscValues(p, bs[1..]);
      Decoded(esc.event, esc.consumed + 1)
    else Decoded(CharInput(c as char), 1)
  }

  /** The single-code keys of each profile. */
  lemma SingleCodeKeys(p: Profile, rest: seq<int>)
    ensures HandleInteraction(p, [BackspaceCode(p)] + rest) == Decoded(KeyPressBackspace, 1)
    ensures HandleInteraction(p, [13] + rest) == Decoded(KeyPressEnter, 1)
    ensures HandleInteraction(p, [32] + rest) == Decoded(KeyPressSpace, 1)
    ensures HandleInteraction(p, [12] + rest) == Decoded(ClearScreen, 1)
  {
  }

  /** The other family's backspace code is an ordinary character. */
  lemma ForeignBackspaceIsCharInput(rest: seq<int>)
    ensures HandleInteraction(NewTerminal, [8] + rest) == Decoded(CharInput(8 as char), 1)
    ensures HandleInteraction(OldTerminal, [127] + rest) == Decoded(CharInput(127 as char), 1)
  {
  }

  /** Escape, introducer, then 65..68 is Up, Down, Right, Left; any other
      final code is not supported. Three reads either way. */
  lemma ArrowSequences(p: Profile, b: int, rest: seq<int>)
    ensures HandleInteraction(p, [Escape, Introducer(p), b] + rest).consumed == 3
    ensures HandleInteraction(p, [Escape, Introducer(p), 65] + rest).event == KeyPressUp
    ensures HandleInteraction(p, [Escape, Introducer(p), 66] + rest).event == KeyPressDown
    ensures HandleInteraction(p, [Escape, Introducer(p), 67] + rest).event == KeyPressRight
    ensures HandleInteraction(p, [Escape, Introducer(p), 68] + rest).event == KeyPressLeft
    ensures !(65 <= b <= 68) ==> HandleInteraction(p, [Escape, Introducer(p), b] + rest).event == NotSupportedChar
  {
    var bs := [Escape, Introducer(p), b] + rest;
    assert bs[1..][0] == Introducer(p) && bs[1..][1] == b;
    assert ([Escape, Introducer(p), 65] + rest)[1..][1] == 65;
    assert ([Escape, Introducer(p), 66] + rest)[1..][1] == 66;
    assert ([Escape, Introducer(p), 67] + rest)[1..][1] == 67;
    assert ([Escape, Introducer(p), 68] + rest)[1..][1] == 68;
  }

  /** An escape followed by anything but the profile's introducer (including
      the end of the stream) is not supported, after two reads. */
  lemma MalformedEscape(p: Profile, bs: seq<int>)
    requires |bs| > 0 && bs[0] == Escape
    requires ReadAt(bs, 1) != Introducer(p)
    ensures HandleInteraction(p, bs) == Decoded(NotSupportedChar, 2)
  {
  }

  /** Every code that is not a control code of the profile is a character
      input of one read. */
  lemma OtherCodesAreCharInput(p: Profile, bs: seq<int>)
    requires |bs| > 0 && IsKeyCode(bs[0]) && !IsControlCode(p, bs[0])
    ensures HandleInteraction(p, bs) == Decoded(CharInput(bs[0] as char), 1)
  {
  }

  /** The two families agree on every first code except 8, 127 and 27. */
  lemma ProfilesAgree(bs: seq<int>)
    requires |bs| > 0 && IsKeyCode(bs[0])
    requires bs[0] != 8 && bs[0] != 127 && bs[0] != Escape
    ensures HandleInteraction(NewTerminal, bs) == HandleInteraction(OldTerminal, bs)
  {
  }

  /** A call depends on the codes it consumes and on nothing else: replacing
      everything after them leaves the result unchanged. */
  lemma {:induction false} DecodeIsLocal(p: Profile, bs: seq<int>, other: seq<int>)
    requires |bs| > 0 && IsKeyCode(bs[0])
    requires HandleInteraction(p, bs).consumed <= |bs|
    ensures HandleInteraction(p, bs[..HandleInteraction(p, bs).consumed] + other) == HandleInteraction(p, bs)
  {
    var n := HandleInteraction(p, bs).consumed;
    var bs' := bs[..n] + other;
    assert bs'[0] == bs[0];
    if bs[0] == Escape {
      assert bs'[1..][0] == bs[1..][0];
      if n == 3 {
        assert bs'[1..][1] == bs[1..][1];
      }
    }
  }

  /** The canonical codes of an event in profile p, the decoder's inverse.
      NotSupportedChar has none, and neither does a character that the
      profile reads as a control key or that needs two code units. */
  function Encode(p: Profile, e: Event): (r: Option<seq<int>>)
    ensures r.Some? ==> 1 <= |r.value| <= 3 && IsKeyInput(r.value)
  {
    match e
    case KeyPressUp => Some([Escape, Introducer(p), 65])
    case KeyPressDown => Some([Escape, Introducer(p), 66])
    case KeyPressRight => Some([Escape, Introducer(p), 67])
    case KeyPressLeft => Some([Escape, Introducer(p), 68])
    case KeyPressEnter => Some([13])
    case KeyPressSpace => Some([32])
    case ClearScreen => Some([12])
    case KeyPressBackspace => Some([BackspaceCode(p)])
    case NotSupportedChar => None
    case CharInput(c) =>
      if IsKeyCode(c as int) && !IsControlCode(p, c as int) then Some([c as int]) else None
  }

  /** Decoding the codes of an encodable event, whatever follows them,
      yields that event after exactly those codes. */
  lemma {:induction false} EncodeThenDecode(p: Profile, e: Event, rest: seq<int>)
    requires Encode(p, e).Some?
    ensures HandleInteraction(p, Encode(p, e).value + rest) == Decoded(e, |Encode(p, e).value|)
  {
    var bs := Encode(p, e).value;
    var input := bs + rest;
    assert input[0] == bs[0];
    if |bs| == 3 {
      assert input[1..][0] == bs[1] && input[1..][1] == bs[2];
    }
    if e.CharInput? {
      assert (bs[0] as char) == e.c;
    }
  }

  /** Conversely, every supported event a call yields is the encoding of the
      codes it consumed; an unsupported one has no encoding. */
  lemma {:induction false} DecodeThenEncode(p: Profile, bs: seq<int>)
    requires |bs| > 0 && IsKeyCode(bs[0])
    requires HandleInteraction(p, bs).consumed <= |bs|
    ensures var d := HandleInteraction(p, bs);
      if d.event == NotSupportedChar then Encode(p, d.event) == None
      else Encode(p, d.event) == Some(bs[..d.consumed])
  {
    var d := HandleInteraction(p, bs);
    if bs[0] == Escape && d.event != NotSupportedChar {
      assert bs[..3] == [bs[0], bs[1], bs[2]];
    } else if d.event.CharInput? {
      assert bs[..1] == [bs[0]];
    } else if d.event != NotSupportedChar {
      assert bs[..1] == [bs[0]];
    }
  }

  /** The decoder agrees with the key codes documented on the events. */
  lemma {:induction false} DecoderMatchesDocumentation(p: Profile, e: Event, rest: seq<int>)
    requires DocumentedKeyCodes(p, e).Some?
    ensures Encode(p, e) == DocumentedKeyCodes(p, e)
    ensures HandleInteraction(p, DocumentedKeyCodes(p, e).value + rest) == Decoded(e, |DocumentedKeyCodes(p, e).value|)
  {
    EncodeThenDecode(p, e, rest);
  }

  /** The old family reads 12 as ClearScreen although its documentation
      leaves that code open. */
  lemma OldClearScreenIsUndocumented()
    ensures DocumentedKeyCodes(OldTerminal, ClearScreen) == None
    ensures Encode(OldTerminal, ClearScreen) == Some([12])
  {
  }

  /** Decoding a whole reader by repeated calls, as the prompt loop does;
      a call that runs past the end stops the stream. */
  function DecodeAll(p: Profile, bs: seq<int>): (es: seq<Event>)
    requires IsKeyInput(bs)
    ensures |es| <= |bs|
    ensures bs != [] ==> |es| >= 1 && es[0] == HandleInteraction(p, bs).event
    decreases |bs|
  {
    if bs == [] then []
    else
      var d := HandleInteraction(p, bs);
      if d.consumed <= |bs| then [d.event] + DecodeAll(p, bs[d.consumed..])
      else [d.event]
  }

  /** The codes of a sequence of events, when every event is encodable. */
  function EncodeAll(p: Profile, es: seq<Event>): (r: Option<seq<int>>)
    ensures r.Some? ==> IsKeyInput(r.value) && |r.value| >= |es|
  {
    if es == [] then Some([])
    else match (Encode(p, es[0]), EncodeAll(p, es[1..]))
      case (Some(head), Some(tail)) => Some(head + tail)
      case _ => None
  }

  /** No state crosses decoder calls: a stream of encoded events decodes
      back to exactly those events. */
  lemma {:induction false} DecodeAllOfEncodeAll(p: Profile, es: seq<Event>)
    requires EncodeAll(p, es).Some?
    ensures DecodeAll(p, EncodeAll(p, es).value) == es
  {
    if es != [] {
      var head := Encode(p, es[0]).value;
      var tail := EncodeAll(p, es[1..]).value;
      var bs := head + tail;
      EncodeThenDecode(p, es[0], tail);
      assert bs[|head|..] == tail;
      DecodeAllOfEncodeAll(p, es[1..]);
    }
  }
}
