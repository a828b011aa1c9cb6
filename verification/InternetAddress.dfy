/** An Internet address as text: getAddressString. */
module InternetAddress {
  import opened AddressText

  /** The address in hexadecimal rather than dotted form. */
  predicate HexForm(w: Words, useIPv6: bool, legacy: bool) {
    (useIPv6 && !legacy) || !(V4Mapped(w) || Unspecified(w))
  }

  /** The interface of a link-local address; `zone` is what the system calls it. */
  function ZoneSuffix(w: Words, zone: string): string {
    if !V4Mapped(w) && LinkLocal(w) then "%" + zone else ""
  }

  function HostText(w: Words, hex: bool, zone: string): string {
    if hex then HexText(w) + ZoneSuffix(w, zone) else Quad(w[6], w[7])
  }

  function WithPort(host: string, hex: bool, port: nat): string {
    if hex then "[" + host + "]:" + Numeral(port, 10) else host + ":" + Numeral(port, 10)
  }

  // ----- The printing loop -----

  /** The words from a to i, as far as the loop has printed them. */
  function Upto(w: Words, a: nat, i: nat): string
    requires a <= i <= 8
  {
    if i < 8 then Colons(w[a..i]) else Joined(w[a..])
  }

  /** What the loop has printed before word i. */
  function Printed(w: Words, i: nat, compressed: bool): string
    requires i <= 8 && (compressed ==> FirstRun(w, 0) < 8 && RunEnd(w, FirstRun(w, 0)) <= i)
  {
    if compressed then
      var z := FirstRun(w, 0);
      var j := RunEnd(w, z);
      Colons(w[..z]) + (if z == 0 && j < 8 then "::" else ":") + Upto(w, j, i)
    else Upto(w, 0, i)
  }

  lemma UptoNext(w: Words, a: nat, i: nat)
    requires a <= i < 8
    ensures Upto(w, a, i) + Numeral(w[i], 16) + (if i < 7 then ":" else "") == Upto(w, a, i + 1)
  {
    ColonsAppend(w[a..i], w[i]);
    if i < 7 {
      assert w[a..i + 1] == w[a..i] + [w[i]];
    } else {
      assert w[a..] == w[a..7] + [w[7]];
    }
  }

  lemma ColonsAppend(ws: seq<nat>, x: nat)
    ensures Colons(ws + [x]) == Colons(ws) + Numeral(x, 16) + ":"
    ensures Joined(ws + [x]) == Colons(ws) + Numeral(x, 16)
  {
    assert (ws + [x])[..|ws|] == ws;
  }

  /** Printing one more word. */
  lemma PrintsWord(w: Words, i: nat, compressed: bool)
    requires i < 8 && (compressed ==> FirstRun(w, 0) < 8 && RunEnd(w, FirstRun(w, 0)) <= i)
    ensures Printed(w, i, compressed) + Numeral(w[i], 16) + (if i < 7 then ":" else "") == Printed(w, i + 1, compressed)
  {
    if compressed {
      var z := FirstRun(w, 0);
      var j := RunEnd(w, z);
      var head := Colons(w[..z]) + (if z == 0 && j < 8 then "::" else ":");
      UptoNext(w, j, i);
      Regroup(head, Upto(w, j, i), Numeral(w[i], 16), if i < 7 then ":" else "");
    } else {
      UptoNext(w, 0, i);
    }
  }

  lemma Regroup(a: string, b: string, c: string, d: string)
    ensures (a + b) + c + d == a + (b + c + d)
  {
  }

  /** Compressing the run that starts at word i. */
  lemma PrintsGap(w: Words, i: nat)
    requires i < 7 && FirstRun(w, 0) == i
    ensures var j := RunEnd(w, i);
            && i + 2 <= j
            && Printed(w, i, false) + (if i == 0 || j == 8 then ":" else "") + (if j < 8 then ":" else "")
               == Printed(w, j, true)
  {
    var j := RunEnd(w, i);
    assert i + 2 <= j by {
      assert ZeroPair(w, i);
      assert RunEnd(w, i) == RunEnd(w, i + 2);
    }
    assert w[0..i] == w[..i];
    assert Upto(w, j, j) == "" by {
      assert w[j..j] == [];
    }
    if i == 0 {
      assert Colons(w[..0]) == "";
    }
  }

  /** The first nonzero word after word i. */
  method EndOfRun(w: Words, i: nat) returns (j: nat)
    requires i < 8
    ensures j == RunEnd(w, i + 1)
  {
    j := i + 1;
    while j < 8 && w[j] == 0
      invariant i < j <= 8 && RunEnd(w, j) == RunEnd(w, i + 1)
      decreases 8 - j
    {
      j := j + 1;
    }
  }

  /** What the loop has done before word i. */
  ghost predicate PrintedTo(w: Words, i: nat, compressed: bool, text: string, prefix: string) {
    && i <= 8 && (compressed ==> FirstRun(w, 0) < 8 && RunEnd(w, FirstRun(w, 0)) <= i)
    && (!compressed ==> FirstRun(w, 0) == FirstRun(w, i))
    && text == prefix + Printed(w, i, compressed)
  }

  /** One pass of the loop at word i; returns the text, the flag, and the last word dealt with. */
  method PrintStep(w: Words, i: nat, compressed: bool, text: string, ghost prefix: string)
    returns (text': string, compressed': bool, last: nat)
    requires i < 8 && PrintedTo(w, i, compressed, text, prefix)
    ensures i <= last < 8 && PrintedTo(w, last + 1, compressed', text', prefix)
    ensures last > i ==> last == RunEnd(w, i) - 1 && FirstRun(w, 0) == i
  {
    var value := w[i];
    var str;
    compressed', last := compressed, i;
    if value != 0 || compressed || i == 7 {
      str := Numeral(value, 16);
      NextIsWord(w, i, compressed, text, prefix);
    } else {
      var j := EndOfRun(w, i);
      if j == i + 1 {
        str := Numeral(value, 16);
        NextIsWord(w, i, compressed, text, prefix);
      } else {
        NextIsGap(w, i, text, prefix);
        str := if i == 0 || j == 8 then ":" else "";
        compressed' := true;
        last := j - 1;
      }
    }
    text' := text + str;
    if last < 7 {
      text' := text' + ":";
    }
  }

  lemma NextIsWord(w: Words, i: nat, compressed: bool, text: string, prefix: string)
    requires i < 8 && (compressed ==> FirstRun(w, 0) < 8 && RunEnd(w, FirstRun(w, 0)) <= i)
    requires text == prefix + Printed(w, i, compressed)
    requires compressed || w[i] != 0 || i == 7 || w[i + 1] != 0
    ensures text + Numeral(w[i], 16) + (if i < 7 then ":" else "") == prefix + Printed(w, i + 1, compressed)
    ensures !compressed && FirstRun(w, 0) == FirstRun(w, i) ==> FirstRun(w, 0) == FirstRun(w, i + 1)
  {
    PrintsWord(w, i, compressed);
    Regroup(prefix, Printed(w, i, compressed), Numeral(w[i], 16), if i < 7 then ":" else "");
  }

  lemma NextIsGap(w: Words, i: nat, text: string, prefix: string)
    requires i < 7 && w[i] == 0 && FirstRun(w, 0) == FirstRun(w, i)
    requires text == prefix + Printed(w, i, false) && RunEnd(w, i + 1) != i + 1
    ensures FirstRun(w, 0) == i && RunEnd(w, i) == RunEnd(w, i + 1) >= i + 2
    ensures var j := RunEnd(w, i);
            text + (if i == 0 || j == 8 then ":" else "") + (if j < 8 then ":" else "") == prefix + Printed(w, j, true)
  {
    var j := RunEnd(w, i + 1);
    assert RunEnd(w, i) == j;
    assert ZeroPair(w, i);
    PrintsGap(w, i);
    Regroup(prefix, Printed(w, i, false), if i == 0 || j == 8 then ":" else "", if j < 8 then ":" else "");
  }

  /** The mapped addresses have one run, before the word 0xffff. */
  lemma MappedRun(w: Words)
    requires V4Mapped(w)
    ensures FirstRun(w, 0) == 0 && RunEnd(w, 0) == 5
    ensures Printed(w, 6, true) == "::ffff:"
  {
    assert forall k :: 0 <= k < 5 ==> w[k] == w[..5][k];
    assert ZeroPair(w, 0);
    assert RunEnd(w, 4) == 5 && RunEnd(w, 3) == 5 && RunEnd(w, 2) == 5;
    assert w[5..6] == [0xffff] && w[5..6][..0] == [];
    assert Colons(w[..0]) == "" && Colons(w[5..6]) == "ffff:" by {
      FfffNumeral();
    }
  }

  /** What the loop leaves is the hexadecimal form, up to the second colon of "::" standing alone. */
  lemma PrintedIsHexText(w: Words, compressed: bool)
    requires !V4Mapped(w)
    requires compressed ==> FirstRun(w, 0) < 8
    requires !compressed ==> FirstRun(w, 0) == 8
    ensures var text := Printed(w, 8, compressed);
            HexText(w) == if |text| <= 1 then text + ":" else text
  {
    assert w[0..] == w;
    if compressed {
      var z := FirstRun(w, 0);
      var j := RunEnd(w, z);
      assert ZeroPair(w, z);
      if z == 0 && j == 8 {
        assert Colons(w[..0]) == "" && Joined(w[8..]) == "";
      } else if z > 0 {
        NumeralReads(w[z - 1], 16);
      }
    } else {
      NumeralReads(w[7], 16);
      NumeralReads(w[6], 16);
    }
  }

  /** The prefix does not matter for the second colon of a lone "::". */
  lemma AfterPrefix(prefix: string, printed: string, quad: string)
    ensures var text := prefix + printed;
            (if |text| <= |prefix| + 1 then text + ":" else text) + quad
            == prefix + ((if |printed| <= 1 then printed + ":" else printed) + quad)
  {
  }

  lemma LoopPrintsHexText(w: Words, compressed: bool)
    requires var i := if V4Mapped(w) then 6 else 8;
             && (compressed ==> FirstRun(w, 0) < 8 && RunEnd(w, FirstRun(w, 0)) <= i)
             && (!compressed ==> FirstRun(w, 0) == FirstRun(w, i))
    ensures var printed := Printed(w, if V4Mapped(w) then 6 else 8, compressed);
            HexText(w) == (if |printed| <= 1 then printed + ":" else printed)
                          + if V4Mapped(w) then Quad(w[6], w[7]) else ""
  {
    if V4Mapped(w) {
      MappedRun(w);
    } else {
      PrintedIsHexText(w, compressed);
      assert HexText(w) + "" == HexText(w);
    }
  }

  /** The loop over the words, with the embedded IPv4 address and the lone "::" dealt with after it. */
  method PrintWords(w: Words, prefix: string) returns (text: string)
    ensures text == prefix + HexText(w)
  {
    var compressed;
    text, compressed := PrintLoop(w, prefix);
    ghost var hex := LoopEnds(w, compressed, text, prefix);
    if |text| <= |prefix| + 1 {
      text := text + ":";
    }
    if V4Mapped(w) {
      text := text + Quad(w[6], w[7]);
    }
  }

  method PrintLoop(w: Words, prefix: string) returns (text: string, compressed: bool)
    ensures PrintedTo(w, if V4Mapped(w) then 6 else 8, compressed, text, prefix)
  {
    var length := if V4Mapped(w) then 6 else 8;
    compressed := false;
    text := prefix;
    var i := 0;
    NothingPrinted(w, prefix);
    while i < length
      invariant 0 <= i <= length && PrintedTo(w, i, compressed, text, prefix)
    {
      if V4Mapped(w) {
        MappedRun(w);
      }
      var last;
      text, compressed, last := PrintStep(w, i, compressed, text, prefix);
      i := last + 1;
    }
  }

  lemma NothingPrinted(w: Words, prefix: string)
    ensures PrintedTo(w, 0, false, prefix, prefix)
  {
    assert w[0..0] == [] && prefix + "" == prefix;
  }

  /** What is left to do after the loop. */
  lemma LoopEnds(w: Words, compressed: bool, text: string, prefix: string) returns (hex: string)
    requires PrintedTo(w, if V4Mapped(w) then 6 else 8, compressed, text, prefix)
    ensures hex == prefix + HexText(w)
    ensures hex == (if |text| <= |prefix| + 1 then text + ":" else text) + if V4Mapped(w) then Quad(w[6], w[7]) else ""
    ensures !V4Mapped(w) ==> hex == if |text| <= |prefix| + 1 then text + ":" else text
  {
    hex := prefix + HexText(w);
    var printed, quad := Printed(w, if V4Mapped(w) then 6 else 8, compressed), if V4Mapped(w) then Quad(w[6], w[7]) else "";
    assert HexText(w) == (if |printed| <= 1 then printed + ":" else printed) + quad by {
      LoopPrintsHexText(w, compressed);
    }
    AfterPrefix(prefix, printed, quad);
    var t := if |text| <= |prefix| + 1 then text + ":" else text;
    assert t + "" == t;
  }

  lemma Assembled(host: string, suffix: string, port: string, bare: string)
    requires bare == host + suffix
    ensures "" + host + suffix == bare && "[" + host + suffix + ("]:" + port) == "[" + bare + "]:" + port
    ensures host + "" == host
  {
    assert "[" + host + suffix + ("]:" + port) == "[" + bare + "]:" + port;
  }

  /** The numeric text of an address. */
  method GetAddressString(w: Words, port: nat, useIPv6: bool, legacy: bool, hidePort: bool, zone: string)
    returns (text: string)
    requires port < 0x10000
    ensures var hex := HexForm(w, useIPv6, legacy);
            var host := HostText(w, hex, zone);
            text == if hidePort then host else WithPort(host, hex, port)
  {
    ghost var hex := HexForm(w, useIPv6, legacy);
    ghost var host := HostText(w, hex, zone);
    ghost var suffix := ZoneSuffix(w, zone);
    if (useIPv6 && !legacy) || !(V4Mapped(w) || Unspecified(w)) {
      text := PrintWords(w, if hidePort then "" else "[");
      ghost var start := text;
      Assembled(HexText(w), suffix, Numeral(port, 10), host);
      if !V4Mapped(w) && LinkLocal(w) {
        text := text + ("%" + zone);
      }
      assert text == start + suffix;
      if !hidePort {
        text := text + ("]:" + Numeral(port, 10));
      }
    } else {
      text := Quad(w[6], w[7]);
      if !hidePort {
        text := text + ":" + Numeral(port, 10);
      }
    }
  }
}
