/** The constructor that reads "address:port" text, and how it fares with printed addresses. */
module AddressSplitter {
  import opened Basics
  import opened AddressText
  import opened InternetAddress

  // ----- The string operations it uses; a C string ends in a NUL that can be read -----

  function At(s: string, k: int): char {
    if 0 <= k < |s| then s[k] else '\0'
  }

  function Mid(s: string, start: nat): string {
    if |s| <= start then "" else s[start..]
  }

  function Left(s: string, n: nat): string {
    if |s| <= n then s else s[..n]
  }

  /** How many leading characters are decimal digits. */
  function DigitRun(s: string): (n: nat)
    ensures n <= |s|
  {
    if s != [] && DigitValue(s[0]) < 10 then 1 + DigitRun(s[1..]) else 0
  }

  /** The white space of the C library: '\U{B}' and '\U{C}' are vertical tab and form feed. */
  function SkipSpace(s: string): string {
    if s != [] && s[0] in " \t\n\U{B}\U{C}\r" then SkipSpace(s[1..]) else s
  }

  function Signed(v: int, negative: bool): int {
    if negative then -v else v
  }

  /** What sscanf's %d finds at the start of a text, if anything. */
  function ScanInt(s: string): Option<int> {
    var t := SkipSpace(s);
    var digits := if At(t, 0) == '-' || At(t, 0) == '+' then Mid(t, 1) else t;
    match Value(digits[..DigitRun(digits)], 10)
    case None => None
    case Some(v) => Some(Signed(v, At(t, 0) == '-'))
  }

  /** A host and a port number, a host and a service name still to be looked up, or an error. */
  datatype Parsed = Address(host: string, port: nat) | Service(host: string, name: string) | Invalid

  function Target(host: string, port: string): Parsed {
    match ScanInt(port)
    case None => Service(host, port)
    case Some(v) => if 0 <= v <= 65535 then Address(host, v) else Service(host, port)
  }

  /** Skips "hostname:port (" before an address in parentheses. */
  function Unwrapped(address: string): string {
    var open := Index(address, '(');
    if open > 0 then Mid(address, open + 1) else address
  }

  function Split(address: string): Parsed {
    var host := Unwrapped(address);
    if At(host, 0) == '[' then
      var close := Index(host, ']');
      if close <= 0 then Invalid
      else
        var next := At(host, close + 1);
        Target(Left(Mid(host, 1), close - 1), if next == ':' || next == '!' then Mid(host, close + 2) else "0")
    else
      var colon := RIndex(address, ':');
      var mark := if colon < 0 then RIndex(address, '!') else colon;
      if mark > 0 then Target(Left(address, mark), Mid(address, mark + 1)) else Target(host, "0")
  }

  // ----- Characters of printed addresses -----

  ghost predicate Plain(s: string) {
    forall k :: 0 <= k < |s| ==> DigitValue(s[k]) < 16 || s[k] == ':' || s[k] == '.'
  }

  lemma {:induction false} ColonsPlain(ws: seq<nat>)
    ensures Plain(Colons(ws)) && Plain(Joined(ws))
  {
    if ws != [] {
      ColonsPlain(ws[..|ws| - 1]);
      NumeralReads(ws[|ws| - 1], 16);
    }
  }

  lemma {:induction false} DottedPlain(bytes: seq<nat>)
    ensures Plain(Dotted(bytes)) && (bytes != [] ==> Dotted(bytes) != [] && DigitValue(Dotted(bytes)[0]) < 10)
  {
    if bytes != [] {
      NumeralReads(bytes[0], 10);
      if |bytes| > 1 {
        DottedPlain(bytes[1..]);
      }
    }
  }

  lemma QuadPlain(hi: nat, lo: nat)
    ensures Plain(Quad(hi, lo)) && ':' !in Quad(hi, lo)
    ensures Quad(hi, lo) != [] && DigitValue(Quad(hi, lo)[0]) < 10
  {
    DottedPlain([hi / 256, hi % 256, lo / 256, lo % 256]);
    DottedIsPlain([hi / 256, hi % 256, lo / 256, lo % 256]);
  }

  lemma HexTextPlain(w: Words)
    ensures Plain(HexText(w))
  {
    if V4Mapped(w) {
      QuadPlain(w[6], w[7]);
      assert Plain("::ffff:");
      PlainTwo("::ffff:", Quad(w[6], w[7]));
    } else {
      ColonsPlain(w);
      var z := FirstRun(w, 0);
      ColonsPlain(w[..z]);
      ColonsPlain(w[RunEnd(w, z)..]);
      PlainTwo(Colons(w[..z]), if z == 0 then "::" else ":");
      PlainTwo(Colons(w[..z]) + (if z == 0 then "::" else ":"), Joined(w[RunEnd(w, z)..]));
    }
  }

  lemma PlainTwo(a: string, b: string)
    requires Plain(a) && Plain(b)
    ensures Plain(a + b)
  {
  }

  // ----- Reading the port -----

  lemma {:induction false} DigitRunOf(s: string, rest: string)
    requires AllDigits(s, 10) && (rest == "" || DigitValue(rest[0]) >= 10)
    ensures DigitRun(s + rest) == |s|
  {
    if s == [] {
      assert s + rest == rest;
    } else {
      assert (s + rest)[1..] == s[1..] + rest;
      DigitRunOf(s[1..], rest);
    }
  }

  lemma {:induction false} PortReads(port: nat, rest: string)
    requires rest == "" || DigitValue(rest[0]) >= 10
    ensures ScanInt(Numeral(port, 10) + rest) == Some(port)
  {
    var s := Numeral(port, 10);
    NumeralReads(port, 10);
    DigitRunOf(s, rest);
    ScanDigits(s, rest, port);
  }

  lemma ScanDigits(s: string, rest: string, v: nat)
    requires s != "" && AllDigits(s, 10) && Value(s, 10) == Some(v) && DigitRun(s + rest) == |s|
    ensures ScanInt(s + rest) == Some(v)
  {
    assert (s + rest)[0] == s[0] && DigitValue(s[0]) < 10;
    assert (s + rest)[..|s|] == s;
  }

  lemma {:induction false} RIndexOf(a: string, c: char, b: string)
    requires c !in b
    ensures RIndex(a + [c] + b, c) == |a|
  {
    var s := a + [c] + b;
    if b != [] {
      assert s[..|s| - 1] == a + [c] + b[..|b| - 1];
      RIndexOf(a, c, b[..|b| - 1]);
    }
  }

  // ----- Splitting printed text -----

  /** Text whose bracketed part is found gives the host and the port in and after the brackets. */
  lemma SplitBracketed(address: string, host: string, port: nat, rest: string)
    requires ']' !in host && port < 0x10000 && (rest == "" || DigitValue(rest[0]) >= 10)
    requires Unwrapped(address) == "[" + host + "]:" + (Numeral(port, 10) + rest)
    ensures Split(address) == Address(host, port)
  {
    BracketParts(host, Numeral(port, 10) + rest, Unwrapped(address));
    PortReads(port, rest);
  }

  lemma BracketParts(host: string, port: string, s: string)
    requires ']' !in host && s == "[" + host + "]:" + port
    ensures At(s, 0) == '[' && Index(s, ']') == |host| + 1
    ensures Left(Mid(s, 1), |host|) == host
    ensures At(s, |host| + 2) == ':' && Mid(s, |host| + 3) == port
  {
    assert s == ("[" + host) + "]" + (":" + port);
    IndexOf("[" + host, ']', ":" + port);
  }

  /** Text without a bracketed part is split at its last colon. */
  lemma SplitAtColon(address: string, front: string, port: nat, rest: string)
    requires At(Unwrapped(address), 0) != '[' && front != ""
    requires address == front + ":" + (Numeral(port, 10) + rest)
    requires port < 0x10000 && ':' !in rest && (rest == "" || DigitValue(rest[0]) >= 10)
    ensures Split(address) == Address(front, port)
  {
    NumeralReads(port, 10);
    ColonParts(address, front, Numeral(port, 10) + rest);
    PortReads(port, rest);
  }

  lemma ColonParts(s: string, front: string, tail: string)
    requires s == front + ":" + tail && ':' !in tail
    ensures RIndex(s, ':') == |front| && Left(s, |front|) == front && Mid(s, |front| + 1) == tail
  {
    RIndexOf(front, ':', tail);
  }

  lemma UnwrapsNothing(s: string)
    requires '(' !in s
    ensures Unwrapped(s) == s
  {
  }

  lemma UnwrapsAfter(front: string, rest: string)
    requires front != "" && '(' !in front
    ensures Unwrapped(front + "(" + rest) == rest
  {
    IndexOf(front, '(', rest);
  }

  lemma HostTextChars(w: Words, hex: bool, zone: string)
    ensures forall c :: c in "[]()!" && c in HostText(w, hex, zone) ==> hex && LinkLocal(w) && c in zone
    ensures HostText(w, hex, zone) != "" && At(HostText(w, hex, zone), 0) != '['
    ensures !hex ==> DigitValue(At(HostText(w, hex, zone), 0)) < 10 && ':' !in HostText(w, hex, zone)
  {
    if hex {
      HexTextPlain(w);
      HexTextLong(w);
    } else {
      QuadPlain(w[6], w[7]);
    }
  }

  /** Brackets and parentheses of a host text come from the interface name. */
  lemma HostTextBrackets(w: Words, hex: bool, zone: string)
    ensures var host := HostText(w, hex, zone);
            && host != "" && host[0] != '['
            && forall c :: c in "[]()" ==> (c in host <==> hex && LinkLocal(w) && !V4Mapped(w) && c in zone)
  {
    HostTextChars(w, hex, zone);
    if hex && LinkLocal(w) && !V4Mapped(w) {
      HexTextPlain(w);
      ZonedBrackets(HexText(w), zone);
    } else {
      HostTextPlain(w, hex, zone);
    }
  }

  lemma ZonedBrackets(text: string, zone: string)
    requires Plain(text)
    ensures forall c :: c in "[]()" ==> (c in text + ("%" + zone) <==> c in zone)
  {
    assert forall k :: 0 <= k < |zone| ==> (text + ("%" + zone))[|text| + 1 + k] == zone[k];
  }

  lemma HostTextPlain(w: Words, hex: bool, zone: string)
    requires !(hex && LinkLocal(w) && !V4Mapped(w))
    ensures Plain(HostText(w, hex, zone))
  {
    if hex {
      HexTextPlain(w);
      assert HexText(w) + "" == HexText(w);
    } else {
      QuadPlain(w[6], w[7]);
    }
  }

  /** An address shows colons, and brackets with its port, exactly if it is printed as IPv6: because it is
      one, or because that form is asked for and the legacy one is not. */
  lemma FormShows(w: Words, useIPv6: bool, legacy: bool, zone: string, port: nat)
    ensures var hex := HexForm(w, useIPv6, legacy);
            var asIPv6 := (useIPv6 && !legacy) || !(w[..6] == [0, 0, 0, 0, 0, 0xffff] || w == [0, 0, 0, 0, 0, 0, 0, 0]);
            && (':' in HostText(w, hex, zone) <==> asIPv6)
            && WithPort(HostText(w, hex, zone), hex, port) != ""
            && (WithPort(HostText(w, hex, zone), hex, port)[0] == '[' <==> asIPv6)
  {
    var hex := HexForm(w, useIPv6, legacy);
    HexFormIs(w, useIPv6, legacy);
    HostTextForm(w, hex, zone);
    PortForm(HostText(w, hex, zone), hex, port);
  }

  lemma HexFormIs(w: Words, useIPv6: bool, legacy: bool)
    ensures HexForm(w, useIPv6, legacy)
            <==> (useIPv6 && !legacy) || !(w[..6] == [0, 0, 0, 0, 0, 0xffff] || w == [0, 0, 0, 0, 0, 0, 0, 0])
  {
    assert w[..6] == w[..5] + [w[5]];
  }

  lemma HostTextForm(w: Words, hex: bool, zone: string)
    ensures HostText(w, hex, zone) != "" && (':' in HostText(w, hex, zone) <==> hex)
    ensures !hex ==> HostText(w, hex, zone)[0] != '['
  {
    if hex {
      HexTextLong(w);
      var k :| 1 <= k < |HexText(w)| && HexText(w)[k] == ':';
      InFront(HexText(w), ZoneSuffix(w, zone), k);
    } else {
      QuadPlain(w[6], w[7]);
    }
  }

  lemma InFront(a: string, b: string, k: nat)
    requires k < |a|
    ensures a[k] in a + b
  {
    assert (a + b)[k] == a[k];
  }

  lemma PortForm(host: string, hex: bool, port: nat)
    requires host != "" && (!hex ==> host[0] != '[')
    ensures WithPort(host, hex, port) != "" && (WithPort(host, hex, port)[0] == '[' <==> hex)
  {
    var number := Numeral(port, 10);
    if hex {
      assert ("[" + host + "]:" + number)[0] == '[';
    } else {
      assert (host + ":" + number)[0] == host[0];
    }
  }

  /** A closing bracket ends the host at the latest. */
  lemma BracketEndsHost(address: string, k: nat)
    requires At(Unwrapped(address), 0) == '[' && k < |Unwrapped(address)| && Unwrapped(address)[k] == ']'
    ensures Split(address).Invalid? || |Split(address).host| <= k - 1
  {
    IndexFirst(Unwrapped(address), ']', k);
  }

  lemma {:induction false} IndexFirst(s: string, c: char, k: nat)
    requires k < |s| && s[k] == c
    ensures 0 <= Index(s, c) <= k
  {
    if s[0] != c {
      IndexFirst(s[1..], c, k - 1);
    }
  }

  /** Some colon of the hexadecimal form is not its first character. */
  lemma HexTextLong(w: Words)
    ensures exists k :: 1 <= k < |HexText(w)| && HexText(w)[k] == ':'
  {
    var z := FirstRun(w, 0);
    if V4Mapped(w) {
      assert HexText(w)[1] == ':';
    } else if z == 8 {
      ColonLast(w[..7]);
      assert HexText(w)[|Colons(w[..7])| - 1] == ':';
    } else {
      if z > 0 {
        ColonLast(w[..z]);
      }
      var front := Colons(w[..z]) + (if z == 0 then "::" else ":");
      assert HexText(w)[|front| - 1] == ':';
    }
  }

  lemma ColonLast(ws: seq<nat>)
    requires ws != []
    ensures |Colons(ws)| >= 2 && Colons(ws)[|Colons(ws)| - 1] == ':'
  {
    NumeralReads(ws[|ws| - 1], 16);
  }

  /**
    * A printed address with its port splits into the printed host and port, exactly unless it is a
    * link-local one whose interface is printed with a parenthesis, as in "(BAD!)", or a bracket.
    */
  lemma PrintedSplits(w: Words, hex: bool, zone: string, port: nat)
    requires port < 0x10000
    ensures var host := HostText(w, hex, zone);
            Split(WithPort(host, hex, port)) == Address(host, port)
            <==> (hex && LinkLocal(w) && !V4Mapped(w) ==> '(' !in zone && ']' !in zone)
  {
    var host := HostText(w, hex, zone);
    HostTextBrackets(w, hex, zone);
    assert '(' in "[]()" && ']' in "[]()";
    if !hex {
      DottedSplits(host, port);
    } else if '(' in host {
      ParenthesisMisleads(host, port);
    } else if ']' in host {
      BracketMisleads(host, port);
    } else {
      BracketedSplits(host, port);
    }
  }

  lemma DottedSplits(host: string, port: nat)
    requires port < 0x10000 && '(' !in host && host != "" && host[0] != '['
    ensures Split(host + ":" + Numeral(port, 10)) == Address(host, port)
  {
    var number := Numeral(port, 10);
    var s := host + ":" + number;
    assert '(' !in s by { NumeralReads(port, 10); }
    assert Unwrapped(s) == s by { UnwrapsNothing(s); }
    assert number + "" == number;
    SplitAtColon(s, host, port, "");
  }

  /** A number that is no port is taken for the name of a service, not cut down to one. */
  lemma LargePortIsService(host: string, n: nat)
    requires n >= 0x10000 && '(' !in host && host != "" && host[0] != '['
    ensures Split(host + ":" + Numeral(n, 10)) == Service(host, Numeral(n, 10))
  {
    var number := Numeral(n, 10);
    var s := host + ":" + number;
    NumeralReads(n, 10);
    UnwrapsNothing(s);
    assert number + "" == number;
    PortReads(n, "");
    ColonParts(s, host, number);
  }

  /** A sign in front of the digits counts: a negative number is a service name again, a positive one is read. */
  lemma SignedPort(host: string, n: nat)
    requires '(' !in host && host != "" && host[0] != '['
    ensures n > 0 ==> Split(host + ":" + ("-" + Numeral(n, 10))) == Service(host, "-" + Numeral(n, 10))
    ensures n < 0x10000 ==> Split(host + ":" + ("+" + Numeral(n, 10))) == Address(host, n)
  {
    NegativePort(host, n);
    PositivePort(host, n);
  }

  lemma NegativePort(host: string, n: nat)
    requires '(' !in host && host != "" && host[0] != '['
    ensures n > 0 ==> Split(host + ":" + ("-" + Numeral(n, 10))) == Service(host, "-" + Numeral(n, 10))
  {
    SignReads(n, '-', Numeral(n, 10));
    SignSplits(host, ['-'] + Numeral(n, 10));
  }

  lemma PositivePort(host: string, n: nat)
    requires '(' !in host && host != "" && host[0] != '['
    ensures n < 0x10000 ==> Split(host + ":" + ("+" + Numeral(n, 10))) == Address(host, n)
  {
    SignReads(n, '+', Numeral(n, 10));
    SignSplits(host, ['+'] + Numeral(n, 10));
  }

  lemma SignReads(n: nat, sign: char, s: string)
    requires (sign == '-' || sign == '+') && s == Numeral(n, 10)
    ensures ScanInt([sign] + s) == Some(Signed(n, sign == '-'))
    ensures ':' !in [sign] + s && '(' !in [sign] + s
  {
    NumeralReads(n, 10);
    SignedDigits(n, sign, s);
  }

  lemma SignedDigits(n: nat, sign: char, s: string)
    requires sign == '-' || sign == '+'
    requires Value(s, 10) == Some(n) && AllDigits(s, 10)
    ensures ScanInt([sign] + s) == Some(Signed(n, sign == '-'))
    ensures ':' !in [sign] + s && '(' !in [sign] + s
  {
    assert DigitRun(s) == |s| by {
      DigitRunOf(s, "");
      assert s + "" == s;
    }
    ScanSigned(sign, s, n);
    NoMarks(sign, s);
  }

  lemma NoMarks(sign: char, s: string)
    requires (sign == '-' || sign == '+') && AllDigits(s, 10)
    ensures ':' !in [sign] + s && '(' !in [sign] + s
  {
    var t := [sign] + s;
    assert forall k :: 1 <= k < |t| ==> t[k] == s[k - 1];
  }

  lemma ScanSigned(sign: char, s: string, v: nat)
    requires sign == '-' || sign == '+'
    requires Value(s, 10) == Some(v) && DigitRun(s) == |s|
    ensures ScanInt([sign] + s) == Some(Signed(v, sign == '-'))
  {
    var t := [sign] + s;
    assert SkipSpace(t) == t && At(t, 0) == sign;
    assert Mid(t, 1) == s && s[..|s|] == s;
  }

  lemma SignSplits(host: string, port: string)
    requires '(' !in host && host != "" && host[0] != '[' && ':' !in port && '(' !in port
    ensures Split(host + ":" + port) == Target(host, port)
  {
    UnwrapsNothing(host + ":" + port);
    ColonParts(host + ":" + port, host, port);
  }

  /** A parenthesis is only looked for behind a host name: one at the very start stays part of the host. */
  lemma LeadingParenthesisStays(host: string, port: nat)
    requires port < 0x10000
    ensures Split("(" + host + ":" + (Numeral(port, 10) + ")")) == Address("(" + host, port)
  {
    SplitAtColon("(" + host + ":" + (Numeral(port, 10) + ")"), "(" + host, port, ")");
  }

  /** The interface is printed exactly for the addresses fe80 to febf in hexadecimal form. */
  lemma InterfaceShown(w: Words, hex: bool, zone: string)
    ensures if hex && 0xfe80 <= w[0] <= 0xfebf then HostText(w, hex, zone) == HexText(w) + ("%" + zone)
            else '%' !in HostText(w, hex, zone)
  {
    if hex {
      ZoneSuffixIs(w, zone);
      HexTextPlain(w);
      assert HexText(w) + "" == HexText(w);
      NoPercent(HexText(w));
    } else {
      QuadPlain(w[6], w[7]);
      NoPercent(Quad(w[6], w[7]));
    }
  }

  lemma ZoneSuffixIs(w: Words, zone: string)
    ensures ZoneSuffix(w, zone) == if 0xfe80 <= w[0] <= 0xfebf then "%" + zone else ""
  {
    assert V4Mapped(w) ==> w[0] == w[..5][0];
  }

  lemma NoPercent(s: string)
    requires Plain(s)
    ensures '%' !in s
  {
  }

  lemma BracketedSplits(host: string, port: nat)
    requires port < 0x10000 && '(' !in host && ']' !in host
    ensures Split("[" + host + "]:" + Numeral(port, 10)) == Address(host, port)
  {
    var number := Numeral(port, 10);
    var s := "[" + host + "]:" + number;
    assert '(' !in s by { NumeralReads(port, 10); }
    assert Unwrapped(s) == s by { UnwrapsNothing(s); }
    assert number + "" == number;
    SplitBracketed(s, host, port, "");
  }

  lemma AtParenthesis(host: string, p: nat, port: string)
    requires p < |host| && host[p] == '('
    ensures "[" + host + "]:" + port == ("[" + host[..p]) + "(" + (host[p + 1..] + "]:" + port)
  {
    assert host == host[..p] + "(" + host[p + 1..];
  }

  lemma ParenthesisMisleads(host: string, port: nat)
    requires '(' in host && port < 0x10000
    ensures Split("[" + host + "]:" + Numeral(port, 10)) != Address(host, port)
  {
    var number := Numeral(port, 10);
    var s, p := "[" + host + "]:" + number, Index(host, '(');
    var tail := host[p + 1..] + "]:" + number;
    assert Unwrapped(s) == tail by {
      AtParenthesis(host, p, number);
      UnwrapsAfter("[" + host[..p], tail);
    }
    if tail[0] == '[' {
      assert tail[|host| - p - 1] == ']';
      BracketEndsHost(s, |host| - p - 1);
    } else {
      assert s == "[" + host + "]" + ":" + (number + "");
      SplitAtColon(s, "[" + host + "]", port, "");
    }
  }

  lemma BracketMisleads(host: string, port: nat)
    requires '(' !in host && ']' in host && port < 0x10000
    ensures Split("[" + host + "]:" + Numeral(port, 10)) != Address(host, port)
  {
    var number := Numeral(port, 10);
    assert '(' !in number by { NumeralReads(port, 10); }
    BracketInside(host, number);
    var s, k := "[" + host + "]:" + number, Index(host, ']');
    UnwrapsNothing(s);
    BracketEndsHost(s, k + 1);
  }

  lemma BracketInside(host: string, port: string)
    requires '(' !in host && ']' in host && '(' !in port
    ensures var s, k := "[" + host + "]:" + port, Index(host, ']');
            '(' !in s && s[0] == '[' && 0 <= k < |host| && s[k + 1] == ']'
  {
  }

  /** Without its port, an address in hexadecimal form is never split back, one in dotted form always is. */
  lemma BareSplits(w: Words, hex: bool, zone: string)
    ensures var host := HostText(w, hex, zone);
            Split(host) == Address(host, 0) <==> !hex
  {
    var host := HostText(w, hex, zone);
    if hex {
      HexTextLong(w);
      var k :| 1 <= k < |HexText(w)| && HexText(w)[k] == ':';
      assert host[k] == ':';
      SplitShortens(host, k);
    } else {
      HostTextChars(w, hex, zone);
      assert '(' in "[]()!" && '!' in "[]()!";
      UnwrapsNothing(host);
      PortReads(0, "");
      assert Numeral(0, 10) + "" == "0";
      NoMark(host);
    }
  }

  /** Text with a colon is never taken for a host as a whole. */
  lemma SplitShortens(s: string, k: nat)
    requires 1 <= k < |s| && s[k] == ':'
    ensures Split(s).Invalid? || |Split(s).host| < |s|
  {
    assert RIndex(s, ':') >= k;
    if At(Unwrapped(s), 0) == '[' {
      assert |Unwrapped(s)| <= |s|;
    }
  }

  lemma NoMark(s: string)
    requires ':' !in s && '!' !in s
    ensures RIndex(s, ':') == -1 && RIndex(s, '!') == -1
  {
  }

  /** The name and the numeric address together, as they are printed when both are asked for. */
  function Named(name: string, text: string): string {
    name + " (" + text + ")"
  }

  /** Splitting skips the name in front of a bracketed address, unless its interface is printed with a
      bracket, but never in front of a dotted one. */
  lemma NamedSplits(name: string, w: Words, hex: bool, zone: string, port: nat)
    requires port < 0x10000 && '(' !in name
    ensures var host := HostText(w, hex, zone);
            Split(Named(name, WithPort(host, hex, port))) == Address(host, port)
            <==> hex && (LinkLocal(w) && !V4Mapped(w) ==> ']' !in zone)
  {
    var host := HostText(w, hex, zone);
    assert ']' in host <==> hex && LinkLocal(w) && !V4Mapped(w) && ']' in zone by {
      HostTextBrackets(w, hex, zone);
      assert ']' in "[]()";
    }
    assert host != "" && host[0] != '[' by {
      HostTextBrackets(w, hex, zone);
    }
    if hex {
      NamedBracketed(name, host, port);
    } else {
      NamedDotted(name, host, port);
    }
  }

  lemma NamedUnwraps(name: string, text: string)
    requires '(' !in name
    ensures Unwrapped(Named(name, text)) == text + ")"
  {
    assert Named(name, text) == (name + " ") + "(" + (text + ")");
    UnwrapsAfter(name + " ", text + ")");
  }

  lemma NamedDotted(name: string, host: string, port: nat)
    requires port < 0x10000 && '(' !in name && host != "" && host[0] != '['
    ensures Split(Named(name, host + ":" + Numeral(port, 10))) == Address(name + " (" + host, port)
  {
    var s, number := Named(name, host + ":" + Numeral(port, 10)), Numeral(port, 10);
    NamedUnwraps(name, host + ":" + number);
    assert s == (name + " (" + host) + ":" + (number + ")");
    SplitAtColon(s, name + " (" + host, port, ")");
  }

  lemma NamedBracketed(name: string, host: string, port: nat)
    requires port < 0x10000 && '(' !in name
    ensures Split(Named(name, "[" + host + "]:" + Numeral(port, 10))) == Address(host, port) <==> ']' !in host
  {
    var number := Numeral(port, 10);
    var s := Named(name, "[" + host + "]:" + number);
    NamedUnwraps(name, "[" + host + "]:" + number);
    assert Unwrapped(s) == "[" + host + "]:" + (number + ")");
    if ']' in host {
      var k := Index(host, ']');
      assert Unwrapped(s)[k + 1] == ']';
      BracketEndsHost(s, k + 1);
    } else {
      SplitBracketed(s, host, port, ")");
    }
  }

  /** An address text without the interface that section 11 of RFC 4007 puts after a percent sign. */
  function BeforeZone(host: string): string {
    var p := Index(host, '%');
    if p < 0 then host else host[..p]
  }

  /** The address and port that a text stands for when it names no service and no host. */
  function ReadAddress(text: string): Option<(seq<nat>, nat)> {
    match Split(text)
    case Address(host, port) =>
      (match ReadHost(BeforeZone(host))
        case None => None
        case Some(w) => Some((w, port)))
    case _ => None
  }

  lemma ZoneCut(text: string, suffix: string, zone: string)
    requires '%' !in text && (suffix == "" || suffix == "%" + zone)
    ensures BeforeZone(text + suffix) == text
  {
    if suffix == "" {
      assert text + suffix == text;
    } else {
      assert text + suffix == text + "%" + zone;
      IndexOf(text, '%', zone);
    }
  }

  lemma HostTextDenotes(w: Words, hex: bool, zone: string)
    requires hex || V4Mapped(w) || Unspecified(w)
    ensures ReadHost(BeforeZone(HostText(w, hex, zone))) == Some(if hex then w else Mapped(w[6], w[7]))
  {
    if hex {
      HexHostDenotes(w, zone);
    } else {
      QuadDenotes(w[6], w[7]);
    }
  }

  lemma QuadDenotes(hi: nat, lo: nat)
    requires hi < 0x10000 && lo < 0x10000
    ensures ReadHost(BeforeZone(Quad(hi, lo))) == Some(Mapped(hi, lo))
  {
    QuadPlain(hi, lo);
    PlainZone(Quad(hi, lo));
    QuadReads(hi, lo);
    ReadsAsMapped(Quad(hi, lo), hi, lo);
  }

  lemma ReadsAsMapped(text: string, hi: nat, lo: nat)
    requires '%' !in text && ':' !in text && ReadQuad(text) == Some([hi, lo])
    ensures ReadHost(BeforeZone(text)) == Some(Mapped(hi, lo))
  {
  }

  lemma PlainZone(text: string)
    requires Plain(text)
    ensures '%' !in text
  {
  }

  lemma HexHostDenotes(w: Words, zone: string)
    ensures ReadHost(BeforeZone(HexText(w) + ZoneSuffix(w, zone))) == Some(w)
  {
    HexTextPlain(w);
    PlainZone(HexText(w));
    ZoneCut(HexText(w), ZoneSuffix(w, zone), zone);
    HexTextReads(w);
  }

  /** Printing an address with its port and reading the text gives both back, except for the
      unspecified address in dotted form: "0.0.0.0" reads as a mapped address.  (Interface names with
      parentheses or brackets are PrintedSplits' case.) */
  lemma RoundTrip(w: Words, useIPv6: bool, legacy: bool, zone: string, port: nat)
    requires port < 0x10000 && (LinkLocal(w) ==> '(' !in zone && ']' !in zone)
    ensures var hex := HexForm(w, useIPv6, legacy);
            var text := WithPort(HostText(w, hex, zone), hex, port);
            ReadAddress(text) == Some((w, port)) <==> !(Unspecified(w) && (legacy || !useIPv6))
  {
    var hex := HexForm(w, useIPv6, legacy);
    PrintedSplits(w, hex, zone, port);
    HostTextDenotes(w, hex, zone);
    if !hex {
      DottedDenotes(w);
    }
  }

  lemma DottedDenotes(w: Words)
    requires V4Mapped(w) || Unspecified(w)
    ensures Mapped(w[6], w[7]) == w <==> !Unspecified(w)
  {
    if V4Mapped(w) {
      assert forall k :: 0 <= k < 5 ==> w[k] == w[..5][k];
    } else {
      assert Mapped(w[6], w[7])[5] != w[5];
    }
  }
}
