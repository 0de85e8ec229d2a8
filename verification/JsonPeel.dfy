/** Taking JSON objects off the front of a frame's text (clients/rixi_transport.py). The JSON reader is a
    parameter: raw_decode either fails, or returns an object and the position after it.

    _push_buffer gives its text back unchanged when no object can be read, so the loop around it ends
    only for text made of whole objects. Peel says what the loop does with any text. */
module JsonPeel {
  import opened Common
  import opened Frames

  /** raw_decode: the object at the start of a text, and how long it is. */
  type Reader<!O> = string -> Option<(O, nat)>

  /** An object read takes up at least one character, and no more than there are. */
  ghost predicate Proper<O(!new)>(read: Reader<O>) {
    forall t :: read(t).Some? ==> 0 < read(t).value.1 <= |t|
  }

  /** What str.lstrip removes. */
  predicate IsSpace(c: char) {
    || '\t' <= c <= '\r' || '\U{1c}' <= c <= ' ' || c == '\U{85}' || c == '\U{a0}' || c == '\U{1680}'
    || '\U{2000}' <= c <= '\U{200a}' || c in {'\U{2028}', '\U{2029}', '\U{202f}', '\U{205f}', '\U{3000}'}
  }

  function Strip(t: string): (r: string)
    ensures |r| <= |t| && (r == t || |r| < |t|) && (r != [] ==> !IsSpace(r[0]))
    decreases |t|
  {
    if t != [] && IsSpace(t[0]) then Strip(t[1..]) else t
  }

  lemma {:induction false} StripSpaces(ws: string, t: string)
    requires (forall c :: c in ws ==> IsSpace(c)) && (t != [] ==> !IsSpace(t[0]))
    ensures Strip(ws + t) == t
    decreases |ws|
  {
    if ws == [] {
      assert ws + t == t;
    } else {
      assert (ws + t)[1..] == ws[1..] + t;
      StripSpaces(ws[1..], t);
    }
  }

  /** By code points: the ASCII white space, the four separators before the blank, and the blanks of Unicode. */
  lemma SpacesExactly(c: char)
    ensures IsSpace(c) <==>
      c as int in {9, 10, 11, 12, 13, 28, 29, 30, 31, 32, 0x85, 0xa0, 0x1680, 0x2028, 0x2029, 0x202f, 0x205f, 0x3000}
      || 0x2000 <= c as int <= 0x200a
  {
  }

  // ---- one call ---------------------------------------------------------------------------------------

  /** _push_buffer: the object it handles, if any, and the text it returns. */
  function PushBuffer<O(!new)>(read: Reader<O>, text: string): (Option<O>, string)
    requires Proper(read)
  {
    var t := Strip(text);
    if t == [] then (None, [])
    else
      match read(t)
      case None => (None, t)
      case Some(p) => (Some(p.0), t[p.1..])
  }

  // ---- the loop ---------------------------------------------------------------------------------------

  /** The text is a row of whole objects with white space around them. */
  predicate Whole<O(!new)>(read: Reader<O>, text: string)
    requires Proper(read)
    decreases |text|
  {
    var t := Strip(text);
    t == [] || (read(t).Some? && Whole(read, t[read(t).value.1..]))
  }

  /** The objects of a text, up to where none can be read. */
  function Objects<O(!new)>(read: Reader<O>, text: string): seq<O>
    requires Proper(read)
    decreases |text|
  {
    var t := Strip(text);
    if t == [] || read(t).None? then [] else [read(t).value.0] + Objects(read, t[read(t).value.1..])
  }

  /** Blanks, tabs, line feeds and carriage returns around objects change nothing about what is handed over. */
  lemma WhiteSpaceIsPassedOver<O(!new)>(read: Reader<O>, ws: string, text: string)
    requires Proper(read) && (forall c :: c in ws ==> c in " \t\n\r") && (text != [] ==> '!' <= text[0] <= '~')
    ensures PushBuffer(read, ws + text) == PushBuffer(read, text)
    ensures Objects(read, ws + text) == Objects(read, text) && (Whole(read, ws + text) <==> Whole(read, text))
  {
    StripSpaces(ws, text);
    assert Strip(text) == text;
  }

  /** The text the loop has after n rounds; it makes none on an empty text. */
  function After<O(!new)>(read: Reader<O>, text: string, n: nat): string
    requires Proper(read)
    decreases n
  {
    if n == 0 || text == [] then text else After(read, PushBuffer(read, text).1, n - 1)
  }

  lemma {:induction false} WholeIsUsedUp<O(!new)>(read: Reader<O>, text: string) returns (n: nat)
    requires Proper(read) && Whole(read, text)
    ensures After(read, text, n) == []
    decreases |text|
  {
    n := 0;
    if text != [] {
      var t := Strip(text);
      if t == [] {
        n := 1;
      } else {
        n := WholeIsUsedUp(read, t[read(t).value.1..]);
        n := n + 1;
      }
    }
  }

  /** A round leaves whole text whole and other text other. */
  lemma RoundKeepsWhole<O(!new)>(read: Reader<O>, text: string)
    requires Proper(read)
    ensures Whole(read, PushBuffer(read, text).1) <==> Whole(read, text)
  {
    var t := Strip(text);
    if t != [] && read(t).None? {
      assert Strip(t) == t;
    }
  }

  lemma {:induction false} OtherIsNeverUsedUp<O(!new)>(read: Reader<O>, text: string, n: nat)
    requires Proper(read) && !Whole(read, text)
    ensures After(read, text, n) != []
    decreases n
  {
    if n > 0 && text != [] {
      RoundKeepsWhole(read, text);
      OtherIsNeverUsedUp(read, PushBuffer(read, text).1, n - 1);
    }
  }

  /** The peel loop ends exactly for text that is a row of whole objects. */
  lemma PeelingEndsIff<O(!new)>(read: Reader<O>, text: string)
    requires Proper(read)
    ensures (exists n: nat :: After(read, text, n) == []) <==> Whole(read, text)
  {
    if Whole(read, text) {
      var n := WholeIsUsedUp(read, text);
    } else {
      forall n: nat ensures After(read, text, n) != [] {
        OtherIsNeverUsedUp(read, text, n);
      }
    }
  }

  /** An object that is not complete stops the loop from getting on: it goes round with the same text. */
  lemma {:induction false} IncompleteObjectSpins<O(!new)>(read: Reader<O>, text: string, n: nat)
    requires Proper(read) && Strip(text) != [] && read(Strip(text)).None?
    ensures n > 0 ==> After(read, text, n) == Strip(text)
    decreases n
  {
    if n > 1 {
      assert Strip(Strip(text)) == Strip(text);
      IncompleteObjectSpins(read, Strip(text), n - 1);
    }
  }

  /** The objects of any text come in its first rounds, and if the text is not a row of whole objects, the
      loop is then where it stays for ever. */
  lemma {:induction false} SpinsOnTheRest<O(!new)>(read: Reader<O>, text: string, n: nat)
    requires Proper(read) && text != [] && PushBuffer(read, text).0.None? && PushBuffer(read, text).1 != []
    ensures n > 0 ==> After(read, text, n) == PushBuffer(read, text).1
    ensures After(read, text, n) != []
    ensures !Whole(read, text) && Objects(read, text) == []
    decreases n
  {
    var t := Strip(text);
    assert PushBuffer(read, text).1 == t && read(t).None?;
    assert Strip(t) == t;
    if n > 0 {
      SpinsOnTheRest(read, t, n - 1);
    }
  }

  /** The loop of _consume_stream over one frame's text, up to where it ends or spins: a round that handles
      no object and leaves text leaves the same text every time. */
  method Peel<O(!new)>(read: Reader<O>, text: string) returns (objs: seq<O>, spins: bool)
    requires Proper(read)
    ensures objs == Objects(read, text)
    ensures spins <==> !Whole(read, text)
    ensures spins <==> forall n: nat :: After(read, text, n) != []
  {
    objs, spins := [], false;
    var plainBuf := text;
    while plainBuf != [] && !spins
      invariant spins ==> !Whole(read, text) && objs == Objects(read, text)
      invariant !spins ==> (Whole(read, plainBuf) <==> Whole(read, text))
      invariant !spins ==> objs + Objects(read, plainBuf) == Objects(read, text)
      decreases |plainBuf|, !spins
    {
      RoundKeepsWhole(read, plainBuf);
      var (obj, rest) := PushBuffer(read, plainBuf);
      if obj.Some? {
        objs := objs + [obj.value];
      } else if rest != [] {
        SpinsOnTheRest(read, plainBuf, 1);
        spins := true;
      }
      plainBuf := rest;
    }
    SpinningMeansForEver(read, text);
  }

  lemma SpinningMeansForEver<O(!new)>(read: Reader<O>, text: string)
    requires Proper(read)
    ensures !Whole(read, text) <==> forall n: nat :: After(read, text, n) != []
  {
    PeelingEndsIff(read, text);
  }

  // ---- whole frames, to the last object -----------------------------------------------------------------

  /** A writer whose objects the reader finds whatever follows them, as holds for the JSON objects
      (braces and all) that frames carry. */
  ghost predicate ReadsBack<O(!new)>(read: Reader<O>, write: O -> string) {
    && (forall o :: write(o) != [] && !IsSpace(write(o)[0]))
    && (forall o, rest :: read(write(o) + rest) == Some((o, |write(o)|)))
  }

  /** Objects, each after some white space. */
  function Text<O>(write: O -> string, objs: seq<(string, O)>, end: string): string
    decreases |objs|
  {
    if objs == [] then end else objs[0].0 + write(objs[0].1) + Text(write, objs[1..], end)
  }

  ghost predicate Spaces(s: string) {
    forall c :: c in s ==> IsSpace(c)
  }

  function Seconds<O>(objs: seq<(string, O)>): seq<O>
    decreases |objs|
  {
    if objs == [] then [] else [objs[0].1] + Seconds(objs[1..])
  }

  /** Text made of whole objects is peeled to the end, and every object is handed over, in order. */
  lemma {:induction false} EveryObjectIsHandedOver<O(!new)>(read: Reader<O>, write: O -> string, objs: seq<(string, O)>, end: string)
    requires Proper(read) && ReadsBack(read, write) && Spaces(end)
    requires forall i :: 0 <= i < |objs| ==> Spaces(objs[i].0)
    ensures Whole(read, Text(write, objs, end))
    ensures Objects(read, Text(write, objs, end)) == Seconds(objs)
    decreases |objs|
  {
    if objs == [] {
      StripSpaces(end, []);
      assert end + [] == end;
    } else {
      EveryObjectIsHandedOver(read, write, objs[1..], end);
      var o, rest := objs[0].1, Text(write, objs[1..], end);
      assert objs[0].0 + write(o) + rest == objs[0].0 + (write(o) + rest);
      StripSpaces(objs[0].0, write(o) + rest);
      assert (write(o) + rest)[|write(o)|..] == rest;
    }
  }

  // ---- a whole stream -----------------------------------------------------------------------------------

  /** Every frame that can be opened holds whole objects. */
  ghost predicate AllWhole<O(!new)>(read: Reader<O>, open: Bytes -> Option<string>, frames: seq<Bytes>)
    requires Proper(read)
  {
    forall f :: f in frames && open(f).Some? ==> Whole(read, open(f).value)
  }

  /** What a list of frames hands over; a frame that cannot be opened is skipped. */
  function ObjectsOf<O(!new)>(read: Reader<O>, open: Bytes -> Option<string>, frames: seq<Bytes>): seq<O>
    requires Proper(read)
    decreases |frames|
  {
    if frames == [] then []
    else
      (match open(frames[0])
       case None => []
       case Some(text) => Objects(read, text)) + ObjectsOf(read, open, frames[1..])
  }

  lemma Assoc<O>(a: seq<O>, b: seq<O>, c: seq<O>)
    ensures (a + b) + c == a + (b + c)
  {
  }

  lemma {:induction false} ObjectsOfSnoc<O(!new)>(read: Reader<O>, open: Bytes -> Option<string>, frames: seq<Bytes>, f: Bytes)
    requires Proper(read)
    ensures ObjectsOf(read, open, frames + [f]) ==
      ObjectsOf(read, open, frames) + (if open(f).Some? then Objects(read, open(f).value) else [])
    decreases |frames|
  {
    if frames != [] {
      assert (frames + [f])[1..] == frames[1..] + [f] && (frames + [f])[0] == frames[0];
      ObjectsOfSnoc(read, open, frames[1..], f);
      Assoc(if open(frames[0]).Some? then Objects(read, open(frames[0]).value) else [], ObjectsOf(read, open, frames[1..]),
            if open(f).Some? then Objects(read, open(f).value) else []);
    }
  }

  /** How far the frames are handled: to the end, or to the first frame the loop spins on. */
  function Handled<O(!new)>(read: Reader<O>, open: Bytes -> Option<string>, frames: seq<Bytes>): seq<Bytes>
    requires Proper(read)
    decreases |frames|
  {
    if frames == [] then []
    else if open(frames[0]).Some? && !Whole(read, open(frames[0]).value) then [frames[0]]
    else [frames[0]] + Handled(read, open, frames[1..])
  }

  lemma {:induction false} AllHandledExactly<O(!new)>(read: Reader<O>, open: Bytes -> Option<string>, frames: seq<Bytes>)
    requires Proper(read)
    ensures Handled(read, open, frames) <= frames
    ensures AllWhole(read, open, frames) ==> Handled(read, open, frames) == frames
    decreases |frames|
  {
    if frames != [] {
      AllHandledExactly(read, open, frames[1..]);
    }
  }

  lemma {:induction false} HandledUpTo<O(!new)>(read: Reader<O>, open: Bytes -> Option<string>, frames: seq<Bytes>, k: nat)
    requires Proper(read) && k < |frames| && AllWhole(read, open, frames[..k])
    requires open(frames[k]).Some? && !Whole(read, open(frames[k]).value)
    ensures Handled(read, open, frames) == frames[..k + 1]
    decreases k
  {
    if k > 0 {
      assert frames[..k][0] == frames[0] && frames[..k][1..] == frames[1..][..k - 1];
      assert AllWhole(read, open, frames[1..][..k - 1]);
      HandledUpTo(read, open, frames[1..], k - 1);
    }
  }

  /** The frames of a stream, as _consume_stream handles them. */
  method HandOver<O(!new)>(read: Reader<O>, open: Bytes -> Option<string>, frames: seq<Bytes>) returns (objs: seq<O>, spins: bool)
    requires Proper(read)
    ensures objs == ObjectsOf(read, open, Handled(read, open, frames))
    ensures spins <==> !AllWhole(read, open, frames)
  {
    objs := [];
    for k := 0 to |frames|
      invariant objs == ObjectsOf(read, open, frames[..k])
      invariant AllWhole(read, open, frames[..k])
    {
      ObjectsOfSnoc(read, open, frames[..k], frames[k]);
      assert frames[..k + 1] == frames[..k] + [frames[k]];
      if open(frames[k]).Some? {
        var some, stuck := Peel(read, open(frames[k]).value);
        objs := objs + some;
        if stuck {
          HandledUpTo(read, open, frames, k);
          assert frames[k] in frames;
          return objs, true;
        }
      }
    }
    assert frames[..|frames|] == frames;
    AllHandledExactly(read, open, frames);
    spins := false;
  }

  /** A sealed text opens to itself. */
  ghost predicate Opens(open: Bytes -> Option<string>, seal: string -> Bytes) {
    forall t :: open(seal(t)) == Some(t)
  }

  function SealAll<O>(write: O -> string, seal: string -> Bytes, messages: seq<seq<(string, O)>>): seq<Bytes>
    decreases |messages|
  {
    if messages == [] then [] else [seal(Text(write, messages[0], []))] + SealAll(write, seal, messages[1..])
  }

  function Concat<O>(messages: seq<seq<(string, O)>>): seq<O>
    decreases |messages|
  {
    if messages == [] then [] else Seconds(messages[0]) + Concat(messages[1..])
  }

  ghost predicate Spaced<O>(messages: seq<seq<(string, O)>>) {
    forall k, i :: 0 <= k < |messages| && 0 <= i < |messages[k]| ==> Spaces(messages[k][i].0)
  }

  lemma {:induction false} SealedObjectsCome<O(!new)>(read: Reader<O>, write: O -> string, open: Bytes -> Option<string>, seal: string -> Bytes, messages: seq<seq<(string, O)>>)
    requires Proper(read) && ReadsBack(read, write) && Opens(open, seal) && Spaced(messages)
    ensures AllWhole(read, open, SealAll(write, seal, messages))
    ensures ObjectsOf(read, open, SealAll(write, seal, messages)) == Concat(messages)
    decreases |messages|
  {
    if messages != [] {
      var m := messages[0];
      EveryObjectIsHandedOver(read, write, m, []);
      SealedObjectsCome(read, write, open, seal, messages[1..]);
    }
  }

  /** From end to end: messages of whole objects, sealed, framed, and cut into any chunks, leave the
      reader with every object in order, and with no frame its peel loop does not get through. */
  lemma StreamDeliversEveryObject<O(!new)>(read: Reader<O>, write: O -> string, open: Bytes -> Option<string>, seal: string -> Bytes,
                                           messages: seq<seq<(string, O)>>, chunks: seq<Bytes>)
    requires Proper(read) && ReadsBack(read, write) && Opens(open, seal) && Spaced(messages)
    requires Fits(SealAll(write, seal, messages))
    requires Flatten(chunks) == SendAll(SealAll(write, seal, messages))
    ensures AllWhole(read, open, Frames.Frames(Flatten(chunks)))
    ensures ObjectsOf(read, open, Frames.Frames(Flatten(chunks))) == Concat(messages)
  {
    SentIsRead(Flatten(chunks));
    SealedObjectsCome(read, write, open, seal, messages);
  }
}
