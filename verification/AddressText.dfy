/** Printing Internet addresses and reading the text back: numerals, the compressed IPv6 form and the
    dotted form. */
module AddressText {

  import opened Basics

  // ----- Numerals, as %x and %d write them -----

  function DigitChar(d: nat): char
    requires d < 16
  {
    "0123456789abcdef"[d]
  }

  /** The value of a digit in base 16; 16 for everything else. */
  function DigitValue(c: char): nat {
    if '0' <= c <= '9' then c as nat - '0' as nat
    else if 'a' <= c <= 'f' then c as nat - 'a' as nat + 10
    else if 'A' <= c <= 'F' then c as nat - 'A' as nat + 10
    else 16
  }

  function Numeral(n: nat, base: nat): string
    requires 2 <= base <= 16
  {
    if n < base then [DigitChar(n)] else Numeral(n / base, base) + [DigitChar(n % base)]
  }

  /** The number a text denotes, if all of it is digits and there is at least one. */
  function Value(s: string, base: nat): Option<nat>
    requires 2 <= base <= 16
  {
    if s == [] then None
    else
      var last := DigitValue(s[|s| - 1]);
      if last >= base then None
      else if |s| == 1 then Some(last)
      else match Value(s[..|s| - 1], base)
        case None => None
        case Some(v) => Some(v * base + last)
  }

  ghost predicate AllDigits(s: string, base: nat) {
    forall k :: 0 <= k < |s| ==> DigitValue(s[k]) < base
  }

  lemma {:induction false} NumeralReads(n: nat, base: nat)
    requires base == 10 || base == 16
    ensures Value(Numeral(n, base), base) == Some(n)
    ensures AllDigits(Numeral(n, base), base) && |Numeral(n, base)| >= 1
  {
    if n < base {
      DigitReads(n);
    } else {
      NumeralReads(n / base, base);
      DigitReads(n % base);
      assert n == n / base * base + n % base;
      OneMoreDigit(Numeral(n / base, base), DigitChar(n % base), base);
    }
  }

  lemma DigitReads(d: nat)
    requires d < 16
    ensures DigitValue(DigitChar(d)) == d
  {
  }

  lemma OneMoreDigit(front: string, c: char, base: nat)
    requires base == 10 || base == 16
    requires Value(front, base).Some? && AllDigits(front, base) && DigitValue(c) < base
    ensures Value(front + [c], base) == Some(Value(front, base).value * base + DigitValue(c))
    ensures AllDigits(front + [c], base)
  {
    assert (front + [c])[..|front|] == front;
  }

  lemma NumeralIsShort(n: nat)
    ensures n < 0x10000 ==> |Numeral(n, 16)| <= 4
    ensures n < 1000 ==> |Numeral(n, 10)| <= 3
  {
    if n < 0x10000 {
      assert n / 16 / 16 / 16 < 16;
      assert |Numeral(n / 16 / 16, 16)| <= 2;
      assert |Numeral(n / 16, 16)| <= 3;
    }
    if n < 1000 {
      assert n / 10 / 10 < 10;
      assert |Numeral(n / 10, 10)| <= 2;
    }
  }

  // ----- Addresses -----

  /** The eight 16-bit words of an address, in host byte order. */
  type Words = w: seq<nat> | |w| == 8 && forall k :: 0 <= k < 8 ==> w[k] < 0x10000
    witness [0, 0, 0, 0, 0, 0, 0, 0]

  predicate V4Mapped(w: Words) {
    w[..5] == [0, 0, 0, 0, 0] && w[5] == 0xffff
  }

  predicate Unspecified(w: Words) {
    w == [0, 0, 0, 0, 0, 0, 0, 0]
  }

  predicate LinkLocal(w: Words) {
    w[0] / 64 == 0xfe80 / 64
  }

  function Mapped(hi: nat, lo: nat): seq<nat> {
    [0, 0, 0, 0, 0, 0xffff, hi, lo]
  }

  /** Each word in hexadecimal, followed by a colon. */
  function Colons(ws: seq<nat>): string {
    if ws == [] then "" else Colons(ws[..|ws| - 1]) + Numeral(ws[|ws| - 1], 16) + ":"
  }

  /** The words with colons between them. */
  function Joined(ws: seq<nat>): string {
    if ws == [] then "" else Colons(ws[..|ws| - 1]) + Numeral(ws[|ws| - 1], 16)
  }

  /** The bytes in decimal with dots between them. */
  function Dotted(bytes: seq<nat>): string {
    if bytes == [] then "" else if |bytes| == 1 then Numeral(bytes[0], 10)
    else Numeral(bytes[0], 10) + "." + Dotted(bytes[1..])
  }

  function Quad(hi: nat, lo: nat): string {
    Dotted([hi / 256, hi % 256, lo / 256, lo % 256])
  }

  predicate ZeroPair(w: Words, i: nat) {
    i < 7 && w[i] == 0 && w[i + 1] == 0
  }

  /** The first position of a run of at least two zero words; 8 if there is none. */
  function FirstRun(w: Words, i: nat): (z: nat)
    requires i <= 8
    ensures i <= z <= 8
    ensures z < 8 ==> ZeroPair(w, z)
    ensures forall k :: i <= k < z ==> !ZeroPair(w, k)
    decreases 8 - i
  {
    if i >= 7 then 8 else if ZeroPair(w, i) then i else FirstRun(w, i + 1)
  }

  /** The end of the zero words that start at i. */
  function RunEnd(w: Words, i: nat): (j: nat)
    requires i <= 8
    ensures i <= j <= 8
    ensures j < 8 ==> w[j] != 0
    ensures forall k :: i <= k < j ==> w[k] == 0
    decreases 8 - i
  {
    if i < 8 && w[i] == 0 then RunEnd(w, i + 1) else i
  }

  /** The text of an IPv6 address: its first run of zero words, if any, is replaced by "::". */
  function HexText(w: Words): string {
    var z := FirstRun(w, 0);
    if V4Mapped(w) then "::ffff:" + Quad(w[6], w[7])
    else if z == 8 then Joined(w)
    else Colons(w[..z]) + (if z == 0 then "::" else ":") + Joined(w[RunEnd(w, z)..])
  }

  // ----- A reader for the text forms of section 2.2 of RFC 4291 -----

  datatype Previous = Start | LeadingColon | Field | Colon | Gap

  /** Words read so far, the position of "::" among them, the current field, and what came last. */
  datatype Reader = Bad | Reader(words: seq<nat>, gap: Option<nat>, field: string, previous: Previous)

  function Word(field: string): Option<nat> {
    if |field| <= 4 then Value(field, 16) else None
  }

  function Step(r: Reader, c: char): Reader {
    if r.Bad? then Bad
    else if c != ':' then
      if r.previous == LeadingColon then Bad else r.(field := r.field + [c], previous := Field)
    else match r.previous
      case Start => r.(previous := LeadingColon)
      case LeadingColon => r.(gap := Some(0), previous := Gap)
      case Field => (match Word(r.field)
        case None => Bad
        case Some(v) => r.(words := r.words + [v], field := "", previous := Colon))
      case Colon => if r.gap.None? then r.(gap := Some(|r.words|), previous := Gap) else Bad
      case Gap => Bad
  }

  function Feed(r: Reader, s: string): Reader {
    if s == [] then r else Step(Feed(r, s[..|s| - 1]), s[|s| - 1])
  }

  const FRESH := Reader.Reader([], None, "", Start)

  /** Position of the first c in s. */
  function Index(s: string, c: char): (p: int)
    ensures -1 <= p < |s|
    ensures p >= 0 ==> s[p] == c && c !in s[..p]
    ensures p < 0 ==> c !in s
  {
    if s == [] then -1
    else if s[0] == c then 0
    else
      var p := Index(s[1..], c);
      assert p >= 0 ==> s[..p + 1] == [s[0]] + s[1..][..p];
      if p < 0 then -1 else p + 1
  }

  /** Position of the last c in s. */
  function RIndex(s: string, c: char): (p: int)
    ensures -1 <= p < |s|
    ensures p >= 0 ==> s[p] == c
    ensures forall k :: p < k < |s| ==> s[k] != c
  {
    if s == [] then -1
    else if s[|s| - 1] == c then |s| - 1
    else RIndex(s[..|s| - 1], c)
  }

  function ReadByte(s: string): Option<nat> {
    if |s| > 3 then None
    else match Value(s, 10)
      case None => None
      case Some(v) => if v < 256 then Some(v) else None
  }

  /** n decimal bytes separated by dots. */
  function ReadBytes(s: string, n: nat): Option<seq<nat>>
    requires n >= 1
  {
    if n == 1 then
      match ReadByte(s)
      case None => None
      case Some(b) => Some([b])
    else
      var p := Index(s, '.');
      if p < 0 then None
      else match (ReadByte(s[..p]), ReadBytes(s[p + 1..], n - 1))
        case (Some(b), Some(rest)) => Some([b] + rest)
        case _ => None
  }

  /** The two words of a dotted quad. */
  function ReadQuad(s: string): Option<seq<nat>> {
    match ReadBytes(s, 4)
    case None => None
    case Some(b) => if |b| == 4 then Some([b[0] * 256 + b[1], b[2] * 256 + b[3]]) else None
  }

  /** The words the last field stands for: a hexadecimal word or a dotted quad. */
  function LastField(field: string): Option<seq<nat>> {
    match Word(field)
    case Some(v) => Some([v])
    case None => ReadQuad(field)
  }

  function Zeros(n: nat): seq<nat> {
    seq(n, _ => 0)
  }

  /** Fills the gap, or checks that eight words were given. */
  function Close(words: seq<nat>, gap: Option<nat>): Option<seq<nat>> {
    match gap
    case None => if |words| == 8 then Some(words) else None
    case Some(g) => if g <= |words| < 8 then Some(words[..g] + Zeros(8 - |words|) + words[g..]) else None
  }

  function Finish(r: Reader): Option<seq<nat>> {
    if r.Bad? then None
    else match r.previous
      case Field => (match LastField(r.field)
        case None => None
        case Some(ws) => Close(r.words + ws, r.gap))
      case Gap => Close(r.words, r.gap)
      case _ => None
  }

  /** The eight words that a numeric host text denotes. */
  function ReadHost(s: string): Option<seq<nat>> {
    if ':' in s then Finish(Feed(FRESH, s))
    else match ReadQuad(s)
      case None => None
      case Some(q) => Some(Mapped(q[0], q[1]))
  }

  // ----- The reader is independent of the printer: it never accepts two "::" -----

  function DoubleColons(s: string): nat {
    if |s| < 2 then 0
    else DoubleColons(s[..|s| - 1]) + if s[|s| - 2] == ':' && s[|s| - 1] == ':' then 1 else 0
  }

  lemma {:induction false} FeedCountsColons(s: string)
    requires !Feed(FRESH, s).Bad?
    ensures var r := Feed(FRESH, s);
            && DoubleColons(s) == (if r.gap.None? then 0 else 1)
            && (r.previous.Gap? ==> r.gap.Some?)
            && (r.previous.Start? <==> s == [])
            && (r.previous.LeadingColon? ==> r.gap.None?)
            && (s != [] ==> (s[|s| - 1] == ':' <==> !r.previous.Field?))
  {
    if s != [] {
      FeedCountsColons(s[..|s| - 1]);
    }
  }

  /** A text that denotes an address holds at most one "::". */
  lemma AcceptedHasOneGap(s: string)
    requires ReadHost(s).Some?
    ensures DoubleColons(s) <= 1
  {
    if ':' in s {
      FeedCountsColons(s);
    } else {
      NoColons(s);
    }
  }

  lemma {:induction false} NoColons(s: string)
    requires ':' !in s
    ensures DoubleColons(s) == 0
  {
    if |s| >= 2 {
      NoColons(s[..|s| - 1]);
    }
  }

  predicate Below(ws: seq<nat>, bound: nat) {
    forall k :: 0 <= k < |ws| ==> ws[k] < bound
  }

  // ----- Feeding the pieces of a printed address -----

  lemma {:induction false} FeedTwo(r: Reader, a: string, b: string)
    ensures Feed(r, a + b) == Feed(Feed(r, a), b)
  {
    if b == [] {
      assert a + b == a;
    } else {
      FeedTwo(r, a, b[..|b| - 1]);
      assert (a + b)[..|a + b| - 1] == a + b[..|b| - 1];
    }
  }

  ghost predicate Open(r: Reader) {
    r.Reader? && r.field == "" && r.previous in {Start, Colon, Gap}
  }

  /** A field is collected as it is. */
  lemma {:induction false} FeedField(r: Reader, s: string)
    requires Open(r) && s != [] && ':' !in s
    ensures Feed(r, s) == r.(field := s, previous := Field)
  {
    if |s| > 1 {
      FeedField(r, s[..|s| - 1]);
    } else {
      assert Feed(r, s[..0]) == r;
    }
  }

  lemma NumeralIsWord(n: nat)
    requires n < 0x10000
    ensures ':' !in Numeral(n, 16) && Numeral(n, 16) != [] && Word(Numeral(n, 16)) == Some(n)
  {
    NumeralReads(n, 16);
    NumeralIsShort(n);
  }

  lemma {:induction false} FeedColons(r: Reader, ws: seq<nat>)
    requires Open(r) && Below(ws, 0x10000)
    ensures Feed(r, Colons(ws)) == AfterColons(r, ws)
  {
    if ws != [] {
      var n := |ws| - 1;
      FeedColons(r, ws[..n]);
      FeedLastColon(r, ws, ws[..n], Colons(ws));
    }
  }

  lemma FeedLastColon(r: Reader, ws: seq<nat>, front: seq<nat>, text: string)
    requires Open(r) && ws != [] && front == ws[..|ws| - 1] && ws[|ws| - 1] < 0x10000 && text == Colons(ws)
    requires Feed(r, Colons(front)) == AfterColons(r, front)
    ensures Feed(r, text) == AfterColons(r, ws)
  {
    var w := ws[|ws| - 1];
    assert text == Colons(front) + (Numeral(w, 16) + ":") by { ColonsLast(ws); }
    assert ws == front + [w];
    FeedNextColon(r, front, w);
  }

  lemma FeedNextColon(r: Reader, front: seq<nat>, w: nat)
    requires Open(r) && w < 0x10000 && Feed(r, Colons(front)) == AfterColons(r, front)
    ensures Feed(r, Colons(front) + (Numeral(w, 16) + ":")) == AfterColons(r, front + [w])
  {
    FeedTwo(r, Colons(front), Numeral(w, 16) + ":");
    AfterColonsIs(r, front);
    FeedWord(AfterColons(r, front), w);
    WordsAdd(r, front, w);
  }

  lemma ColonsLast(ws: seq<nat>)
    requires ws != []
    ensures Colons(ws) == Colons(ws[..|ws| - 1]) + (Numeral(ws[|ws| - 1], 16) + ":")
  {
  }

  /** The reader after words that are each followed by a colon. */
  function AfterColons(r: Reader, ws: seq<nat>): Reader
    requires r.Reader?
  {
    if ws == [] then r else r.(words := r.words + ws, previous := Colon)
  }

  lemma AfterColonsIs(r: Reader, ws: seq<nat>)
    requires Open(r)
    ensures var t := AfterColons(r, ws);
            Open(t) && t.words == r.words + ws && t.gap == r.gap
  {
  }

  lemma WordsAdd(r: Reader, front: seq<nat>, w: nat)
    requires r.Reader?
    ensures AfterColons(AfterColons(r, front), [w]) == AfterColons(r, front + [w])
  {
    assert r.words + front + [w] == r.words + (front + [w]);
    assert r.words + [] == r.words;
  }

  lemma FeedWord(r: Reader, w: nat)
    requires Open(r) && w < 0x10000
    ensures Feed(r, Numeral(w, 16) + ":") == AfterColons(r, [w])
  {
    var text := Numeral(w, 16);
    NumeralIsWord(w);
    FeedTwo(r, text, ":");
    FeedField(r, text);
    FeedOne(Feed(r, text), ':');
  }

  lemma FeedOne(r: Reader, c: char)
    ensures Feed(r, [c]) == Step(r, c)
  {
    assert [c][..0] == [];
    assert Feed(r, [c][..0]) == r;
  }

  lemma FeedJoined(r: Reader, ws: seq<nat>)
    requires Open(r) && ws != [] && Below(ws, 0x10000)
    ensures Finish(Feed(r, Joined(ws))) == Close(r.words + ws, r.gap)
  {
    var n := |ws| - 1;
    FeedColons(r, ws[..n]);
    FeedTwo(r, Colons(ws[..n]), Numeral(ws[n], 16));
    AfterColonsIs(r, ws[..n]);
    FinishLast(r, AfterColons(r, ws[..n]), ws);
  }

  lemma FinishLast(r: Reader, t: Reader, ws: seq<nat>)
    requires r.Reader? && Open(t) && ws != [] && ws[|ws| - 1] < 0x10000
    requires t.words == r.words + ws[..|ws| - 1] && t.gap == r.gap
    ensures Finish(Feed(t, Numeral(ws[|ws| - 1], 16))) == Close(r.words + ws, r.gap)
  {
    FinishWord(t, ws[|ws| - 1]);
    assert t.words + [ws[|ws| - 1]] == r.words + ws;
  }

  lemma FinishWord(r: Reader, w: nat)
    requires Open(r) && w < 0x10000
    ensures Finish(Feed(r, Numeral(w, 16))) == Close(r.words + [w], r.gap)
  {
    NumeralIsWord(w);
    FeedField(r, Numeral(w, 16));
  }

  // ----- Dotted quads -----

  lemma {:induction false} IndexOf(a: string, c: char, b: string)
    requires c !in a
    ensures Index(a + [c] + b, c) == |a|
  {
    if a != [] {
      IndexOf(a[1..], c, b);
      assert (a + [c] + b)[1..] == a[1..] + [c] + b;
    }
  }

  lemma NumeralIsByte(n: nat)
    requires n < 256
    ensures ReadByte(Numeral(n, 10)) == Some(n) && '.' !in Numeral(n, 10)
  {
    NumeralReads(n, 10);
    NumeralIsShort(n);
  }

  lemma ReadFirstByte(head: string, b: nat, rest: string, bytes: seq<nat>)
    requires ReadByte(head) == Some(b) && '.' !in head
    requires bytes != [] && ReadBytes(rest, |bytes|) == Some(bytes)
    ensures ReadBytes(head + "." + rest, |bytes| + 1) == Some([b] + bytes)
  {
    IndexOf(head, '.', rest);
    assert (head + "." + rest)[..|head|] == head && (head + "." + rest)[|head| + 1..] == rest;
  }

  lemma DottedCons(bytes: seq<nat>)
    requires |bytes| > 1
    ensures Dotted(bytes) == Numeral(bytes[0], 10) + "." + Dotted(bytes[1..])
  {
  }

  lemma OneByteReads(b: nat)
    requires b < 256
    ensures ReadBytes(Numeral(b, 10), 1) == Some([b])
  {
    NumeralIsByte(b);
  }

  lemma {:induction false} DottedReads(bytes: seq<nat>)
    requires bytes != [] && Below(bytes, 256)
    ensures ReadBytes(Dotted(bytes), |bytes|) == Some(bytes)
  {
    if |bytes| == 1 {
      assert bytes == [bytes[0]];
      OneByteReads(bytes[0]);
    } else {
      assert Dotted(bytes) == Numeral(bytes[0], 10) + "." + Dotted(bytes[1..]) by { DottedCons(bytes); }
      assert [bytes[0]] + bytes[1..] == bytes;
      DottedReads(bytes[1..]);
      NumeralIsByte(bytes[0]);
      ReadFirstByte(Numeral(bytes[0], 10), bytes[0], Dotted(bytes[1..]), bytes[1..]);
    }
  }

  lemma QuadReads(hi: nat, lo: nat)
    requires hi < 0x10000 && lo < 0x10000
    ensures ReadQuad(Quad(hi, lo)) == Some([hi, lo])
  {
    var bytes := [hi / 256, hi % 256, lo / 256, lo % 256];
    DottedReads(bytes);
    QuadWords(hi, lo, Quad(hi, lo), bytes);
  }

  lemma QuadWords(hi: nat, lo: nat, s: string, bytes: seq<nat>)
    requires |bytes| == 4 && ReadBytes(s, |bytes|) == Some(bytes)
    requires hi == bytes[0] * 256 + bytes[1] && lo == bytes[2] * 256 + bytes[3]
    ensures ReadQuad(s) == Some([hi, lo])
  {
  }

  // ----- Reading back what is printed -----

  lemma {:induction false} ColonsEnd(ws: seq<nat>)
    ensures ws != [] ==> ':' in Colons(ws)
  {
    if ws != [] {
      assert Colons(ws)[|Colons(ws)| - 1] == ':';
    }
  }

  /** The reader after the words before the gap, and the gap. */
  lemma FeedGap(w: Words, z: nat)
    requires z < 8
    ensures var sep := if z == 0 then "::" else ":";
            Feed(FRESH, Colons(w[..z]) + sep) == Reader(w[..z], Some(z), "", Gap)
  {
    FeedColons(FRESH, w[..z]);
    AfterColonsIs(FRESH, w[..z]);
    if z == 0 {
      assert Colons(w[..0]) + "::" == ":" + ":";
      FeedTwo(FRESH, ":", ":");
      FeedOne(FRESH, ':');
      FeedOne(Feed(FRESH, ":"), ':');
    } else {
      FeedTwo(FRESH, Colons(w[..z]), ":");
      FeedOne(Feed(FRESH, Colons(w[..z])), ':');
    }
  }

  /** Closing the gap puts the zero words back. */
  lemma CloseRestores(w: Words, z: nat, j: nat)
    requires z < j <= 8 && forall k :: z <= k < j ==> w[k] == 0
    ensures Close(w[..z] + w[j..], Some(z)) == Some(w)
  {
    var ws := w[..z] + w[j..];
    assert ws[..z] == w[..z] && ws[z..] == w[j..];
    assert w == w[..z] + Zeros(j - z) + w[j..];
  }

  lemma GapReads(w: Words, z: nat, j: nat)
    requires z < j <= 8 && forall k :: z <= k < j ==> w[k] == 0
    ensures var text := Colons(w[..z]) + (if z == 0 then "::" else ":") + Joined(w[j..]);
            ReadHost(text) == Some(w)
  {
    var front := Colons(w[..z]) + (if z == 0 then "::" else ":");
    assert front[|front| - 1] == ':';
    FeedGap(w, z);
    FeedTwo(FRESH, front, Joined(w[j..]));
    FinishGap(w, z, j);
    assert (front + Joined(w[j..]))[|front| - 1] == ':';
  }

  lemma FinishGap(w: Words, z: nat, j: nat)
    requires z < j <= 8 && forall k :: z <= k < j ==> w[k] == 0
    ensures Finish(Feed(Reader(w[..z], Some(z), "", Gap), Joined(w[j..]))) == Some(w)
  {
    CloseRestores(w, z, j);
    if j < 8 {
      FeedJoined(Reader(w[..z], Some(z), "", Gap), w[j..]);
    } else {
      assert w[j..] == [] && w[..z] + w[j..] == w[..z];
    }
  }

  lemma {:induction false} DottedIsPlain(bytes: seq<nat>)
    ensures ':' !in Dotted(bytes)
    ensures |Dotted(bytes)| >= |bytes|
    ensures |bytes| >= 4 ==> |Dotted(bytes)| > 4
  {
    if bytes != [] {
      NumeralReads(bytes[0], 10);
      if |bytes| > 1 {
        DottedIsPlain(bytes[1..]);
      }
    }
  }

  lemma FeedMappedPrefix()
    ensures Feed(FRESH, "::ffff:") == Reader([0xffff], Some(0), "", Colon)
  {
    var head: Words := [0, 0, 0, 0, 0, 0, 0, 0];
    FeedGap(head, 0);
    assert Colons(head[..0]) + "::" == "::";
    FeedTwo(FRESH, "::", "ffff:");
    FeedFfff(Feed(FRESH, "::"));
    assert "::" + "ffff:" == "::ffff:";
  }

  lemma FinishQuad(r: Reader, hi: nat, lo: nat)
    requires Open(r) && hi < 0x10000 && lo < 0x10000
    ensures Finish(Feed(r, Quad(hi, lo))) == Close(r.words + [hi, lo], r.gap)
  {
    DottedIsPlain([hi / 256, hi % 256, lo / 256, lo % 256]);
    FeedField(r, Quad(hi, lo));
    QuadReads(hi, lo);
  }

  lemma MappedReads(w: Words)
    requires V4Mapped(w)
    ensures ReadHost("::ffff:" + Quad(w[6], w[7])) == Some(w)
  {
    FeedMappedPrefix();
    FeedTwo(FRESH, "::ffff:", Quad(w[6], w[7]));
    FinishQuad(Reader([0xffff], Some(0), "", Colon), w[6], w[7]);
    CloseMapped(w);
    assert ("::ffff:" + Quad(w[6], w[7]))[0] == ':';
  }

  lemma FeedFfff(r: Reader)
    requires Open(r)
    ensures Feed(r, "ffff:") == AfterColons(r, [0xffff])
  {
    FfffNumeral();
    FeedWord(r, 0xffff);
    assert "ffff" + ":" == "ffff:";
  }

  lemma FfffNumeral()
    ensures Numeral(0xffff, 16) == "ffff"
  {
    assert Numeral(0xf, 16) == "f";
    assert Numeral(0xff, 16) == "ff";
    assert Numeral(0xfff, 16) == "fff";
  }

  lemma CloseMapped(w: Words)
    requires V4Mapped(w)
    ensures Close([0xffff] + [w[6], w[7]], Some(0)) == Some(w)
  {
    assert forall k :: 0 <= k < 5 ==> w[..5][k] == w[k];
    assert w[5..] == [0xffff] + [w[6], w[7]];
    CloseRestores(w, 0, 5);
    assert w[..0] + w[5..] == w[5..];
  }

  /** The hexadecimal form denotes the address it was printed from, and compresses at most once. */
  lemma HexTextReads(w: Words)
    ensures ReadHost(HexText(w)) == Some(w)
    ensures DoubleColons(HexText(w)) <= 1
  {
    var z := FirstRun(w, 0);
    if V4Mapped(w) {
      MappedReads(w);
    } else if z == 8 {
      FeedJoined(FRESH, w);
      ColonsEnd(w[..7]);
      assert [] + w == w;
    } else {
      GapReads(w, z, RunEnd(w, z));
    }
    AcceptedHasOneGap(HexText(w));
  }
}
