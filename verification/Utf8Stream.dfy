/**
 Reading a child's UTF-8 output in pieces: what the user sees does not depend on where the reads
 happened to cut the text.
 */
module Utf8Stream {
  import opened Utf8

  type Bytes = seq<Byte>
  type Text = seq<Scalar>

  // ---- One read ----

  datatype Decoded = Decoded(text: Text, leftover: Bytes)

  function DecodeChunk(leftover: Bytes, chunk: Bytes): Decoded {
    var combined := leftover + chunk;
    match Validate(combined)
    case Valid => Decoded(Decode(combined), [])
    case Invalid(n, _, unfinished) =>
      if unfinished then
        InvalidIsTrue(combined);
        Decoded(Decode(combined[..n]), combined[n..])
      else Decoded(Lossy(combined), [])
  }

  /** A byte sequence with something broken in it, not merely unfinished at its end. */
  predicate Corrupt(s: Bytes) {
    Validate(s).Invalid? && !Validate(s).unfinished
  }

  /** A read yields what is settled and keeps what dangles, unless something is broken. */
  lemma ChunkSettles(leftover: Bytes, chunk: Bytes)
    ensures var combined := leftover + chunk;
            DecodeChunk(leftover, chunk)
            == if Corrupt(combined) then Decoded(Lossy(combined), []) else Decoded(Settled(combined), Dangling(combined))
  {
    var combined := leftover + chunk;
    if Validate(combined).Valid? {
      ValidSettles(combined);
    } else if Validate(combined).unfinished {
      UnfinishedSettles(combined);
    }
  }

  /** A well-formed beginning settles and leaves the rest to be scanned. */
  lemma PrefixSettles(p: Bytes, s: Bytes)
    requires Validate(p).Valid?
    ensures Settled(p + s) == Decode(p) + Settled(s) && Dangling(p + s) == Dangling(s)
  {
    PrefixText(p, s);
    PrefixDangles(p, s);
  }

  lemma {:induction false} PrefixText(p: Bytes, s: Bytes)
    requires Validate(p).Valid?
    ensures Settled(p + s) == Decode(p) + Settled(s)
  {
    if p == [] {
      assert p + s == s;
    } else {
      ValidTail(p);
      HeadIsStable(p, s);
      PrefixText(p[Taken(p)..], s);
      HeadFirst([Head(p)], Decode(p[Taken(p)..]), Settled(s));
    }
  }

  lemma {:induction false} PrefixDangles(p: Bytes, s: Bytes)
    requires Validate(p).Valid?
    ensures Dangling(p + s) == Dangling(s)
  {
    if p == [] {
      assert p + s == s;
    } else {
      HeadIsStable(p, s);
      PrefixDangles(p[Taken(p)..], s);
    }
  }

  lemma {:induction false} ValidSettles(s: Bytes)
    requires Validate(s).Valid?
    ensures Settled(s) == Decode(s) && Dangling(s) == []
  {
    PrefixSettles(s, []);
    assert s + [] == s && Decode(s) + [] == Decode(s);
  }

  lemma UnfinishedSettles(s: Bytes)
    requires Validate(s).Invalid? && Validate(s).unfinished
    ensures var n := Validate(s).validUpTo;
            && Validate(s[..n]).Valid? && Settled(s) == Decode(s[..n]) && Dangling(s) == s[n..]
            && s == s[..n] + Dangling(s) && |s| - |Dangling(s)| == n
  {
    var n := Validate(s).validUpTo;
    InvalidIsTrue(s);
    Rejoin(s, n);
    TwoParts(s, s[..n], s[n..]);
  }

  lemma TwoParts(s: Bytes, p: Bytes, d: Bytes)
    requires s == p + d && Validate(p).Valid? && d != [] && Next(d).Unfinished?
    ensures Settled(s) == Decode(p) && Dangling(s) == d
  {
    PrefixSettles(p, d);
    assert Decode(p) + [] == Decode(p);
  }

  /** Bytes with nothing broken are a well-formed string and what dangles after it. */
  lemma SettledIsDecoded(s: Bytes)
    requires !Corrupt(s)
    ensures var n := |s| - |Dangling(s)|;
            && n >= 0 && Validate(s[..n]).Valid? && Settled(s) == Decode(s[..n]) && s == s[..n] + Dangling(s)
  {
    if Validate(s).Valid? {
      ValidSettles(s);
      assert s[..|s|] == s;
    } else {
      UnfinishedSettles(s);
    }
  }

  /** The leftover is never more than three bytes: none, or the beginning of one character. */
  lemma LeftoverIsSmall(leftover: Bytes, chunk: Bytes)
    ensures var l := DecodeChunk(leftover, chunk).leftover; |l| <= 3 && (l == [] || Begins(l))
  {
    ChunkSettles(leftover, chunk);
    if Dangling(leftover + chunk) != [] {
      UnfinishedIsBeginning(Dangling(leftover + chunk));
    }
  }

  // ---- When a read is transparent ----

  /** Whatever comes next, the text so far and the leftover stand for the bytes read. */
  ghost predicate Transparent(combined: Bytes, d: Decoded) {
    forall rest: Bytes :: Lossy(combined + rest) == d.text + Lossy(d.leftover + rest)
  }

  /** Broken bytes in a read that also ends inside a character. */
  predicate CutsCharacter(combined: Bytes) {
    Corrupt(combined) && Dangling(combined) != []
  }

  lemma LossyIsSettled(s: Bytes)
    ensures Lossy(s) == Settled(s) + (if Dangling(s) == [] then [] else [REPLACEMENT])
  {
    LossySplit(s, []);
    assert s + [] == s && Dangling(s) + [] == Dangling(s);
  }

  /** A continuation that shows the difference: the bytes that finish the character cut off. */
  lemma CutShows(combined: Bytes)
    requires CutsCharacter(combined)
    ensures var rest := Completion(Dangling(combined));
            Lossy(combined + rest) != Lossy(combined) + Lossy(rest)
  {
    var d := Dangling(combined);
    var rest := Completion(d);
    LossyIsSettled(combined);
    LossySplit(combined, rest);
    WholeChar(d + rest);
    assert Lossy(rest) != [];
    assert |Lossy(combined + rest)| == |Settled(combined)| + 1;
  }

  lemma WholeChar(s: Bytes)
    requires IsChar(s)
    ensures |Lossy(s)| == 1
  {
    assert s[..|s|] == s;
    NextIsGrammar(s, |s|);
    assert s[|s|..] == [];
  }

  /**
   A read loses nothing, whatever follows it, exactly when it does not both contain broken bytes and
   end inside a character.
   */
  lemma TransparentReads(leftover: Bytes, chunk: Bytes)
    ensures Transparent(leftover + chunk, DecodeChunk(leftover, chunk)) <==> !CutsCharacter(leftover + chunk)
  {
    var combined := leftover + chunk;
    ChunkSettles(leftover, chunk);
    if CutsCharacter(combined) {
      CutShows(combined);
      var rest := Completion(Dangling(combined));
      assert [] + rest == rest;
      assert Lossy(combined + rest) != Lossy(combined) + Lossy([] + rest);
    } else {
      LossyIsSettled(combined);
      forall rest: Bytes
        ensures Lossy(combined + rest) == DecodeChunk(leftover, chunk).text + Lossy(DecodeChunk(leftover, chunk).leftover + rest)
      {
        LossySplit(combined, rest);
      }
    }
  }

  // ---- A whole stream ----

  function Join(chunks: seq<Bytes>): Bytes {
    if chunks == [] then [] else Join(chunks[..|chunks| - 1]) + chunks[|chunks| - 1]
  }

  /** The text shown and the bytes kept after these reads. */
  function Feed(chunks: seq<Bytes>): Decoded {
    if chunks == [] then Decoded([], [])
    else
      var before := Feed(chunks[..|chunks| - 1]);
      var d := DecodeChunk(before.leftover, chunks[|chunks| - 1]);
      Decoded(before.text + d.text, d.leftover)
  }

  /** The whole text of a stream that ended; a failed read drops what was kept. */
  function Total(chunks: seq<Bytes>, failed: bool): Text {
    Feed(chunks).text + (if failed then [] else Lossy(Feed(chunks).leftover))
  }

  /** Reads cut where they may: if no prefix of the bytes is broken, the cuts leave no trace. */
  lemma {:induction false} CutsLeaveNoTrace(chunks: seq<Bytes>)
    requires !Corrupt(Join(chunks))
    ensures Feed(chunks) == DecodeChunk([], Join(chunks))
  {
    var all := Join(chunks);
    assert [] + all == all;
    ChunkSettles([], all);
    if chunks != [] {
      var n := |chunks| - 1;
      var p := Join(chunks[..n]);
      PrefixIsWhole(p, chunks[n]);
      CutsLeaveNoTrace(chunks[..n]);
      assert [] + p == p;
      ChunkSettles([], p);
      ChunkSettles(Dangling(p), chunks[n]);
      CutSettles(p, chunks[n]);
      CutDangles(p, chunks[n]);
      CutIsWhole(p, chunks[n]);
    }
  }

  /** A prefix of unbroken bytes is unbroken. */
  lemma {:induction false} PrefixIsWhole(a: Bytes, b: Bytes)
    requires !Corrupt(a + b)
    ensures !Corrupt(a)
  {
    if a != [] && !Next(a).Unfinished? {
      NextIsStable(a, b);
      if Next(a).Char? {
        var w := Next(a).width;
        assert (a + b)[w..] == a[w..] + b;
        PrefixIsWhole(a[w..], b);
      }
    }
  }

  /** What is settled stays settled, whatever follows. */
  lemma {:induction false} CutSettles(a: Bytes, b: Bytes)
    ensures Settled(a + b) == Settled(a) + Settled(Dangling(a) + b)
  {
    if a == [] {
      assert a + b == b && Dangling(a) + b == b;
    } else if !Next(a).Unfinished? {
      var left := a[Taken(a)..];
      HeadIsStable(a, b);
      CutSettles(left, b);
      HeadFirst([Head(a)], Settled(left), Settled(Dangling(left) + b));
    }
  }

  /** What dangles in the end is what the last dangling bytes come to with what follows. */
  lemma {:induction false} CutDangles(a: Bytes, b: Bytes)
    ensures Dangling(a + b) == Dangling(Dangling(a) + b)
  {
    if a == [] {
      assert a + b == b && Dangling(a) + b == b;
    } else if !Next(a).Unfinished? {
      HeadIsStable(a, b);
      CutDangles(a[Taken(a)..], b);
    }
  }

  /** Unbroken bytes stay unbroken when what has settled is taken away. */
  lemma {:induction false} CutIsWhole(a: Bytes, b: Bytes)
    requires !Corrupt(a + b)
    ensures !Corrupt(Dangling(a) + b)
  {
    if a != [] && !Next(a).Unfinished? {
      NextIsStable(a, b);
      WholeTail(a + b);
      assert (a + b)[Taken(a)..] == a[Taken(a)..] + b;
      CutIsWhole(a[Taken(a)..], b);
    }
  }

  lemma WholeTail(s: Bytes)
    requires !Corrupt(s) && s != [] && !Next(s).Unfinished?
    ensures Next(s).Char? && !Corrupt(s[Taken(s)..])
  {
  }

  /**
   Chunk independence: however the encoding of a text is cut into reads, the text shown is that text,
   nothing is left over at the end, and so no replacement is invented.
   */
  lemma ChunkIndependence(text: Text, chunks: seq<Bytes>)
    requires Join(chunks) == EncodeAll(text)
    ensures Feed(chunks) == Decoded(text, []) && Total(chunks, false) == text && Total(chunks, true) == text
  {
    EncodingsDecode(text);
    CutsLeaveNoTrace(chunks);
    assert [] + EncodeAll(text) == EncodeAll(text);
  }

  /** The same for any octets the grammar generates. */
  lemma WellFormedStream(chunks: seq<Bytes>)
    requires WellFormed(Join(chunks))
    ensures Validate(Join(chunks)).Valid? && Feed(chunks) == Decoded(Decode(Join(chunks)), [])
  {
    ValidIsWellFormed(Join(chunks));
    DecodingsEncode(Join(chunks));
    ChunkIndependence(Decode(Join(chunks)), chunks);
  }

  lemma {:induction false} JoinPrefix(chunks: seq<Bytes>, k: nat)
    requires k <= |chunks|
    ensures Join(chunks[..k]) <= Join(chunks)
    decreases |chunks|
  {
    if k < |chunks| {
      var n := |chunks| - 1;
      assert chunks[..n][..k] == chunks[..k];
      JoinPrefix(chunks[..n], k);
    } else {
      assert chunks[..k] == chunks;
    }
  }

  /** Part of a well-formed string: the characters that are whole, and the beginning of the next. */
  lemma PartOfWhole(a: Bytes, b: Bytes)
    requires Validate(a + b).Valid?
    ensures !Corrupt(a) && Settled(a) <= Decode(a + b) && EncodeAll(Settled(a)) + Dangling(a) == a
  {
    PrefixIsWhole(a, b);
    CutSettles(a, b);
    ValidSettles(a + b);
    SettledIsDecoded(a);
    DecodingsEncode(a[..|a| - |Dangling(a)|]);
  }

  /** The text shown and the bytes kept, in terms of the bytes read. */
  lemma FeedSettles(chunks: seq<Bytes>)
    requires !Corrupt(Join(chunks))
    ensures Feed(chunks) == Decoded(Settled(Join(chunks)), Dangling(Join(chunks)))
  {
    CutsLeaveNoTrace(chunks);
    ChunkSettles([], Join(chunks));
    assert [] + Join(chunks) == Join(chunks);
  }

  lemma PartOfText(text: Text, p: Bytes, rest: Bytes)
    requires p + rest == EncodeAll(text)
    ensures !Corrupt(p) && Settled(p) <= text && EncodeAll(Settled(p)) + Dangling(p) == p
    ensures Dangling(p) == [] || Begins(Dangling(p))
  {
    EncodingsDecode(text);
    PartOfWhole(p, rest);
    if Dangling(p) != [] {
      UnfinishedIsBeginning(Dangling(p));
    }
  }

  /**
   On the way, what has been shown is the part of the text whose bytes have arrived in full, and what
   is kept is the beginning of the next character.
   */
  lemma OnTheWay(text: Text, chunks: seq<Bytes>, k: nat)
    requires Join(chunks) == EncodeAll(text) && k <= |chunks|
    ensures var f := Feed(chunks[..k]);
            && f.text <= text
            && EncodeAll(f.text) + f.leftover == Join(chunks[..k])
            && |f.leftover| <= 3 && (f.leftover == [] || Begins(f.leftover))
  {
    var all, p := EncodeAll(text), Join(chunks[..k]);
    JoinPrefix(chunks, k);
    assert all == p + all[|p|..];
    PartOfText(text, p, all[|p|..]);
    FeedSettles(chunks[..k]);
  }

  lemma BegunText(text: Text, begun: Bytes)
    requires Begins(begun)
    ensures var all := EncodeAll(text) + begun;
            !Corrupt(all) && Settled(all) == text && Dangling(all) == begun && Lossy(begun) == [REPLACEMENT]
  {
    EncodingsDecode(text);
    UnfinishedIsBeginning(begun);
    ValidConcat(EncodeAll(text), begun);
    TwoParts(EncodeAll(text) + begun, EncodeAll(text), begun);
    assert begun[|begun|..] == [];
  }

  /** A stream cut short inside a character shows the text before it and one replacement. */
  lemma TruncatedStream(text: Text, begun: Bytes, chunks: seq<Bytes>)
    requires Begins(begun) && Join(chunks) == EncodeAll(text) + begun
    ensures Total(chunks, false) == text + [REPLACEMENT] && Total(chunks, true) == text
  {
    BegunText(text, begun);
    FeedSettles(chunks);
  }

  /** Every read of the stream is transparent. */
  predicate NeverCuts(chunks: seq<Bytes>) {
    chunks == [] || (
      var n := |chunks| - 1;
      NeverCuts(chunks[..n]) && !CutsCharacter(Feed(chunks[..n]).leftover + chunks[n]))
  }

  /** Even on broken input, if no read cuts a character the stream shows what one read would. */
  lemma {:induction false} LossyIndependence(chunks: seq<Bytes>, rest: Bytes)
    requires NeverCuts(chunks)
    ensures Feed(chunks).text + Lossy(Feed(chunks).leftover + rest) == Lossy(Join(chunks) + rest)
    decreases |chunks|
  {
    if chunks == [] {
      assert [] + rest == rest;
    } else {
      var n := |chunks| - 1;
      LossyIndependence(chunks[..n], chunks[n] + rest);
      LossyStep(Feed(chunks[..n]), chunks[n], rest);
      Regroup(Join(chunks[..n]), chunks[n], rest);
    }
  }

  lemma LossyStep(before: Decoded, chunk: Bytes, rest: Bytes)
    requires !CutsCharacter(before.leftover + chunk)
    ensures var d := DecodeChunk(before.leftover, chunk);
            (before.text + d.text) + Lossy(d.leftover + rest) == before.text + Lossy(before.leftover + (chunk + rest))
  {
    var d := DecodeChunk(before.leftover, chunk);
    TransparentReads(before.leftover, chunk);
    TransparentAt(before.leftover + chunk, d, rest);
    Regroup(before.leftover, chunk, rest);
    Regroup(before.text, d.text, Lossy(d.leftover + rest));
  }

  lemma TransparentAt(combined: Bytes, d: Decoded, rest: Bytes)
    requires Transparent(combined, d)
    ensures Lossy(combined + rest) == d.text + Lossy(d.leftover + rest)
  {
  }

  lemma Regroup<T>(a: seq<T>, b: seq<T>, c: seq<T>)
    ensures (a + b) + c == a + (b + c)
  {
  }

  lemma BrokenStreams(chunks: seq<Bytes>)
    requires NeverCuts(chunks)
    ensures Total(chunks, false) == Lossy(Join(chunks))
  {
    LossyIndependence(chunks, []);
    assert Feed(chunks).leftover + [] == Feed(chunks).leftover && Join(chunks) + [] == Join(chunks);
  }

  /** Bytes 0xFF 0xE2 and then 0x82 0xAC: the euro sign is lost to where the read fell. */
  lemma CutIsVisible()
    ensures Total([[0xFF, 0xE2], [0x82, 0xAC]], false) == [REPLACEMENT, REPLACEMENT, REPLACEMENT, REPLACEMENT]
    ensures Total([[0xFF, 0xE2, 0x82, 0xAC]], false) == [REPLACEMENT, 0x20AC]
  {
    var a: Bytes, b: Bytes := [0xFF, 0xE2], [0x82, 0xAC];
    LossyOfCut();
    LossyOfEuro();
    OneRead(a);
    OneRead([0xFF, 0xE2, 0x82, 0xAC]);
    assert [a, b][..1] == [a] && [] + b == b;
    assert Feed([a, b]) == Decoded(Lossy(a) + Lossy(b), []);
  }

  lemma LossyOfCut()
    ensures Lossy([0xFF, 0xE2]) == [REPLACEMENT, REPLACEMENT]
    ensures Lossy([0x82, 0xAC]) == [REPLACEMENT, REPLACEMENT]
  {
    var a: Bytes, b: Bytes := [0xFF, 0xE2], [0x82, 0xAC];
    assert a[1..] == [0xE2] && b[1..] == [0xAC] && [0xAC][1..] == [] && [0xE2][1..] == [];
    assert Lossy([0xE2]) == [REPLACEMENT] + Lossy([]) && Lossy([0xAC]) == [REPLACEMENT] + Lossy([]);
  }

  lemma EuroSign(euro: Bytes)
    requires euro == [0xE2, 0x82, 0xAC]
    ensures Head(euro) == 0x20AC
  {
    assert euro[..3] == euro && Next(euro) == Char(3);
    assert CodePoint(euro) == 0x20AC;
  }

  lemma LossyOfEuro()
    ensures Lossy([0xFF, 0xE2, 0x82, 0xAC]) == [REPLACEMENT, 0x20AC]
  {
    var s: Bytes, euro: Bytes := [0xFF, 0xE2, 0x82, 0xAC], [0xE2, 0x82, 0xAC];
    assert Next(s) == Broken(1) && Next(euro) == Char(3);
    EuroSign(euro);
    assert s[1..] == euro && euro[3..] == [];
    assert Lossy(euro) == [Head(euro)] + Lossy([]);
  }

  lemma OneRead(s: Bytes)
    requires s != [] && Next(s).Broken?
    ensures Feed([s]) == Decoded(Lossy(s), [])
  {
    assert [s][..0] == [] && [] + s == s;
  }

  // ---- The loop ----

  /** One read: some bytes, none at the end of the stream, or a failure. */
  datatype Read = Got(bytes: Bytes) | Failed

  datatype Reader = Reader(shown: Text, leftover: Bytes, open: bool)

  function AfterRead(r: Reader, read: Read): Reader {
    if !r.open then r
    else
      match read
      case Failed => Reader(r.shown, [], false)
      case Got(bytes) =>
        if bytes == [] then Reader(r.shown + Lossy(r.leftover), [], false)
        else
          var d := DecodeChunk(r.leftover, bytes);
          Reader(r.shown + d.text, d.leftover, true)
  }

  /** What the loop has shown after these reads. */
  function After(input: seq<Read>): Reader {
    if input == [] then Reader([], [], true)
    else AfterRead(After(input[..|input| - 1]), input[|input| - 1])
  }

  lemma AfterMore(input: seq<Read>, k: nat)
    requires k < |input|
    ensures After(input[..k + 1]) == AfterRead(After(input[..k]), input[k])
  {
    assert input[..k + 1][..k] == input[..k];
  }

  function Concat(texts: seq<Text>): Text {
    if texts == [] then [] else Concat(texts[..|texts| - 1]) + texts[|texts| - 1]
  }

  lemma ConcatMore(texts: seq<Text>, t: Text)
    ensures Concat(texts + [t]) == Concat(texts) + t
  {
    assert (texts + [t])[..|texts|] == texts;
  }

  lemma {:induction false} ClosedForGood(input: seq<Read>, k: nat)
    requires k <= |input| && !After(input[..k]).open
    ensures After(input) == After(input[..k])
    decreases |input|
  {
    if k == |input| {
      assert input[..k] == input;
    } else {
      var n := |input| - 1;
      assert input[..n][..k] == input[..k];
      ClosedForGood(input[..n], k);
    }
  }

  /** Show a text and add it to the answer. */
  method Emit(emitted: seq<Text>, assistantText: Text, text: Text) returns (emitted1: seq<Text>, assistantText1: Text)
    requires Concat(emitted) == assistantText && forall t :: t in emitted ==> t != []
    ensures assistantText1 == assistantText + text && Concat(emitted1) == assistantText1
    ensures forall t :: t in emitted1 ==> t != []
  {
    emitted1, assistantText1 := emitted, assistantText;
    if text != [] {
      ConcatMore(emitted, text);
      emitted1, assistantText1 := emitted + [text], assistantText + text;
    }
  }

  /** The read loop: emit each nonempty decoded text, flush at the end of the stream. */
  method ReadStdout(input: seq<Read>) returns (emitted: seq<Text>, assistantText: Text)
    ensures assistantText == After(input).shown && Concat(emitted) == assistantText
    ensures forall t :: t in emitted ==> t != []
  {
    emitted, assistantText := [], [];
    var leftover: Bytes := [];
    var k := 0;
    while k < |input|
      invariant 0 <= k <= |input|
      invariant After(input[..k]) == Reader(assistantText, leftover, true)
      invariant Concat(emitted) == assistantText
      invariant forall t :: t in emitted ==> t != []
    {
      AfterMore(input, k);
      match input[k] {
        case Failed =>
          ClosedForGood(input, k + 1);
          return;
        case Got(bytes) =>
          if bytes == [] {
            ClosedForGood(input, k + 1);
            emitted, assistantText := Emit(emitted, assistantText, Lossy(leftover));
            return;
          }
          var d := DecodeChunk(leftover, bytes);
          leftover := d.leftover;
          emitted, assistantText := Emit(emitted, assistantText, d.text);
      }
      k := k + 1;
    }
    assert input[..k] == input;
  }

  function Gots(chunks: seq<Bytes>): (r: seq<Read>)
    ensures |r| == |chunks|
  {
    if chunks == [] then [] else Gots(chunks[..|chunks| - 1]) + [Got(chunks[|chunks| - 1])]
  }

  lemma AfterOne(input: seq<Read>, read: Read)
    ensures After(input + [read]) == AfterRead(After(input), read)
  {
    assert (input + [read])[..|input|] == input;
  }

  lemma {:induction false} LoopFeeds(chunks: seq<Bytes>)
    requires forall i :: 0 <= i < |chunks| ==> chunks[i] != []
    ensures After(Gots(chunks)) == Reader(Feed(chunks).text, Feed(chunks).leftover, true)
  {
    if chunks != [] {
      var n := |chunks| - 1;
      LoopFeeds(chunks[..n]);
      AfterOne(Gots(chunks[..n]), Got(chunks[n]));
    }
  }

  /** What the loop shows of a stream, in terms of its chunks. */
  lemma LoopShowsTotal(chunks: seq<Bytes>)
    requires forall i :: 0 <= i < |chunks| ==> chunks[i] != []
    ensures After(Gots(chunks)) == Reader(Feed(chunks).text, Feed(chunks).leftover, true)
    ensures After(Gots(chunks) + [Got([])]).shown == Total(chunks, false)
    ensures After(Gots(chunks) + [Failed]).shown == Total(chunks, true)
  {
    LoopFeeds(chunks);
    AfterOne(Gots(chunks), Got([]));
    AfterOne(Gots(chunks), Failed);
  }
}
