/** node/wifi_ap: parsing the deployment config, rendering hostapd.conf, and reading the SSID back. */
module WifiConfig {
  import opened Wire

  // ------------------------------------------------------- Python's string rules

  /** Where `str.splitlines` ends a line. */
  predicate IsBreak(c: char) {
    var n := c as int;
    0x0A <= n <= 0x0D || 0x1C <= n <= 0x1E || n == 0x85 || n == 0x2028 || n == 0x2029
  }

  /** What `str.strip` removes. */
  predicate IsSpace(c: char) {
    var n := c as int;
    || 0x09 <= n <= 0x0D || 0x1C <= n <= 0x20 || n == 0x85 || n == 0xA0 || n == 0x1680
    || 0x2000 <= n <= 0x200A || n == 0x2028 || n == 0x2029 || n == 0x202F || n == 0x205F || n == 0x3000
  }

  predicate OneLine(s: string) {
    forall i :: 0 <= i < |s| ==> !IsBreak(s[i])
  }

  function LineEnd(s: string): (n: nat)
    ensures n <= |s| && OneLine(s[..n]) && (n < |s| ==> IsBreak(s[n]))
    ensures forall k :: 0 <= k < n ==> !IsBreak(s[k])
  {
    if s == "" || IsBreak(s[0]) then 0 else 1 + LineEnd(s[1..])
  }

  function SplitLines(s: string): (lines: seq<string>)
    ensures forall l :: l in lines ==> OneLine(l)
    decreases |s|
  {
    var n := LineEnd(s);
    if s == "" then []
    else if n == |s| then [s]
    else if s[n] == '\r' && n + 1 < |s| && s[n + 1] == '\n' then [s[..n]] + SplitLines(s[n + 2..])
    else [s[..n]] + SplitLines(s[n + 1..])
  }

  /** A line's end: one of the breaks, or CR LF together. */
  predicate IsEnd(e: string) {
    (|e| == 1 && IsBreak(e[0])) || e == "\r\n"
  }

  /** Each line has its end, except that the last may have none if there is something on it; and no CR is taken for
      an end of its own when a LF follows it. */
  predicate AreEnds(lines: seq<string>, ends: seq<string>) {
    && |ends| == |lines|
    && (forall l :: l in lines ==> OneLine(l))
    && (forall i :: 0 <= i < |ends| ==> IsEnd(ends[i]) || (ends[i] == "" && i == |ends| - 1 && lines[i] != ""))
    && forall i :: 0 <= i < |ends| - 1 && ends[i] == "\r" ==> !(lines[i + 1] == "" && ends[i + 1] == "\n")
  }

  function Weave(lines: seq<string>, ends: seq<string>): string
    requires |lines| == |ends|
  {
    if lines == [] then "" else lines[0] + ends[0] + Weave(lines[1..], ends[1..])
  }

  lemma LineEndsAt(l: string, t: string)
    requires OneLine(l) && (t != "" ==> IsBreak(t[0]))
    ensures LineEnd(l + t) == |l|
  {
    var s := l + t;
    assert forall k :: 0 <= k < |l| ==> s[k] == l[k];
    assert t != "" ==> s[|l|] == t[0];
  }

  lemma SplitFirst(l: string, e: string, t: string)
    requires OneLine(l) && IsEnd(e) && (e == "\r" && t != "" ==> t[0] != '\n')
    ensures SplitLines(l + e + t) == [l] + SplitLines(t)
  {
    var s := l + e + t;
    assert s == l + (e + t);
    LineEndsAt(l, e + t);
    assert s[..|l|] == l && s[|l|] == e[0] && s[|l| + |e|..] == t;
    assert |s| > |l| + 1 ==> s[|l| + 1] == (e + t)[1];
  }

  lemma {:induction false} WeaveStarts(lines: seq<string>, ends: seq<string>)
    requires AreEnds(lines, ends) && lines != []
    ensures var s := Weave(lines, ends); s != "" && (s[0] == '\n' <==> lines[0] == "" && ends[0] == "\n")
  {
    var s := Weave(lines, ends);
    assert lines[0] in lines;
    if lines[0] != "" {
      assert s[0] == lines[0][0] && !IsBreak(s[0]);
    } else {
      assert s[0] == ends[0][0];
    }
  }

  /** Text put together from lines and their ends splits into those lines. */
  lemma {:induction false} WovenSplits(lines: seq<string>, ends: seq<string>)
    requires AreEnds(lines, ends)
    ensures SplitLines(Weave(lines, ends)) == lines
    decreases |lines|
  {
    if lines != [] {
      var l, e, later, ends' := lines[0], ends[0], lines[1..], ends[1..];
      assert AreEnds(later, ends') by {
        assert forall i :: 0 <= i < |later| ==> later[i] == lines[i + 1] && ends'[i] == ends[i + 1];
      }
      assert l in lines;
      if e == "" {
        assert later == [] && Weave(later, ends') == "" && Weave(lines, ends) == l + "";
        LineEndsAt(l, "");
        assert l + "" == l;
      } else {
        if later != [] {
          WeaveStarts(later, ends');
        }
        SplitFirst(l, e, Weave(later, ends'));
        WovenSplits(later, ends');
        assert [l] + later == lines;
      }
    }
  }

  lemma OneMoreLine(l: string, e: string, later: seq<string>, ends: seq<string>)
    requires AreEnds(later, ends) && OneLine(l) && IsEnd(e)
    requires e == "\r" && Weave(later, ends) != "" ==> Weave(later, ends)[0] != '\n'
    ensures AreEnds([l] + later, [e] + ends)
    ensures Weave([l] + later, [e] + ends) == l + e + Weave(later, ends)
  {
    assert ([l] + later)[1..] == later && ([e] + ends)[1..] == ends;
    if later != [] {
      WeaveStarts(later, ends);
    }
  }

  /** The first line of a text, its end, and what follows. */
  lemma CutLine(s: string) returns (l: string, e: string, t: string)
    requires LineEnd(s) < |s|
    ensures s == l + e + t && |t| < |s| && OneLine(l) && IsEnd(e) && (e == "\r" && t != "" ==> t[0] != '\n')
    ensures SplitLines(s) == [l] + SplitLines(t)
  {
    var n := LineEnd(s);
    l := s[..n];
    if s[n] == '\r' && n + 1 < |s| && s[n + 1] == '\n' {
      e, t := "\r\n", s[n + 2..];
    } else {
      e, t := [s[n]], s[n + 1..];
    }
  }

  /** And all text is put together so: splitting loses nothing but the ends. */
  lemma {:induction false} SplitRejoins(s: string) returns (ends: seq<string>)
    ensures AreEnds(SplitLines(s), ends) && Weave(SplitLines(s), ends) == s
    decreases |s|
  {
    if s == "" {
      ends := [];
    } else if LineEnd(s) == |s| {
      ends := [""];
      assert s[..|s|] == s && SplitLines(s) == [s] && Weave([s][1..], ends[1..]) == "";
    } else {
      hide SplitLines, LineEnd, AreEnds, Weave;
      var l, e, t := CutLine(s);
      var later := SplitRejoins(t);
      OneMoreLine(l, e, SplitLines(t), later);
      ends := [e] + later;
    }
  }

  function StripLeft(s: string): string {
    if s != "" && IsSpace(s[0]) then StripLeft(s[1..]) else s
  }

  function StripRight(s: string): string {
    if s != "" && IsSpace(s[|s| - 1]) then StripRight(s[..|s| - 1]) else s
  }

  function Strip(s: string): string {
    StripRight(StripLeft(s))
  }

  predicate Trimmed(s: string) {
    s != "" ==> !IsSpace(s[0]) && !IsSpace(s[|s| - 1])
  }

  lemma {:induction false} StripLeftCuts(s: string) returns (i: nat)
    ensures i <= |s| && StripLeft(s) == s[i..] && forall k :: 0 <= k < i ==> IsSpace(s[k])
    ensures StripLeft(s) != "" ==> !IsSpace(StripLeft(s)[0])
  {
    i := 0;
    if s != "" && IsSpace(s[0]) {
      var k := StripLeftCuts(s[1..]);
      i := k + 1;
    }
  }

  lemma {:induction false} StripRightCuts(s: string) returns (i: nat)
    ensures i <= |s| && StripRight(s) == s[..i] && forall k :: i <= k < |s| ==> IsSpace(s[k])
    ensures StripRight(s) != "" ==> !IsSpace(StripRight(s)[|StripRight(s)| - 1])
    decreases |s|
  {
    i := |s|;
    if s != "" && IsSpace(s[|s| - 1]) {
      i := StripRightCuts(s[..|s| - 1]);
      assert s[..|s| - 1][..i] == s[..i];
    }
  }

  /** Stripping keeps a stretch of the text, trimmed, and leaves trimmed text alone. */
  lemma StripCuts(s: string)
    ensures Trimmed(Strip(s))
    ensures OneLine(s) ==> OneLine(Strip(s))
    ensures Trimmed(s) ==> Strip(s) == s
  {
    var i := StripLeftCuts(s);
    var j := StripRightCuts(StripLeft(s));
  }

  /** And takes off nothing but spaces. */
  lemma StripTakesSpaces(s: string) returns (i: nat, j: nat)
    ensures i <= j <= |s| && Strip(s) == s[i..j]
    ensures forall k :: 0 <= k < i || j <= k < |s| ==> IsSpace(s[k])
  {
    i := StripLeftCuts(s);
    var n := StripRightCuts(StripLeft(s));
    j := i + n;
    assert forall k :: j <= k < |s| ==> s[k] == s[i..][k - i];
  }

  function IndexOf(s: string, c: char): (n: nat)
    ensures n <= |s| && (n < |s| ==> s[n] == c)
    ensures forall k :: 0 <= k < n ==> s[k] != c
  {
    if s == "" || s[0] == c then 0 else 1 + IndexOf(s[1..], c)
  }

  /** Bytes of `str.encode()`. */
  function Utf8Length(s: string): nat {
    if s == "" then 0
    else
      var n := s[0] as int;
      (if n < 0x80 then 1 else if n < 0x800 then 2 else if n < 0x10000 then 3 else 4) + Utf8Length(s[1..])
  }

  lemma {:induction false} Utf8Adds(a: string, b: string)
    ensures Utf8Length(a + b) == Utf8Length(a) + Utf8Length(b)
  {
    if a == "" {
      assert a + b == b;
    } else {
      assert (a + b)[1..] == a[1..] + b;
      Utf8Adds(a[1..], b);
    }
  }

  /** One to four bytes for a character, by its range. */
  lemma Utf8OfOne(c: char)
    ensures var n, bytes := c as int, Utf8Length([c]);
            && (bytes == 1 <==> n < 0x80) && (bytes == 2 <==> 0x80 <= n < 0x800)
            && (bytes == 3 <==> 0x800 <= n < 0x10000) && (bytes == 4 <==> 0x10000 <= n)
  {
    assert [c][1..] == "";
  }

  // --------------------------------------------------------- deployment_config.py

  datatype Config = Config(ssid: string, passphrase: string)

  datatype Error =
    | NotKeyValue(line: nat)
    | UnknownKey(line: nat)
    | DuplicateKey(line: nat)
    | MissingKey(key: string)
    | BadSsidLength
    | SsidHasControls
    | BadPassphraseLength
    | PassphraseNotPrintable

  datatype Result<+T> = Ok(value: T) | Err(error: Error)

  type Values = map<string, string>

  predicate IsControl(c: char) {
    c as int < 0x20 || c as int == 0x7F
  }

  predicate IsPrintable(c: char) {
    0x20 <= c as int <= 0x7E
  }

  /** One line; `n` is its number, counted from 1. */
  function ReadLine(n: nat, raw: string, values: Values): Result<Values> {
    var line := Strip(raw);
    if line == "" || line[0] == '#' then Ok(values)
    else
      var i := IndexOf(line, '=');
      if i == |line| then Err(NotKeyValue(n))
      else
        var key := Strip(line[..i]);
        if key != "ssid" && key != "passphrase" then Err(UnknownKey(n))
        else if key in values then Err(DuplicateKey(n))
        else Ok(values[key := Strip(line[i + 1..])])
  }

  function ReadLines(lines: seq<string>): Result<Values> {
    if lines == [] then Ok(map[])
    else
      match ReadLines(lines[..|lines| - 1])
      case Err(e) => Err(e)
      case Ok(values) => ReadLine(|lines|, lines[|lines| - 1], values)
  }

  function Validate(values: Values): Result<Config> {
    if "ssid" !in values then Err(MissingKey("ssid"))
    else if "passphrase" !in values then Err(MissingKey("passphrase"))
    else
      var ssid, passphrase := values["ssid"], values["passphrase"];
      if !(1 <= Utf8Length(ssid) <= 32) then Err(BadSsidLength)
      else if exists i :: 0 <= i < |ssid| && IsControl(ssid[i]) then Err(SsidHasControls)
      else if !(8 <= |passphrase| <= 63) then Err(BadPassphraseLength)
      else if !(forall i :: 0 <= i < |passphrase| ==> IsPrintable(passphrase[i])) then Err(PassphraseNotPrintable)
      else Ok(Config(ssid, passphrase))
  }

  function Parse(text: string): Result<Config> {
    match ReadLines(SplitLines(text))
    case Err(e) => Err(e)
    case Ok(values) => Validate(values)
  }

  /** Blank and comment lines say nothing; any other is a key and a value around its first '=', or an error. */
  lemma ReadLineExactly(n: nat, raw: string, values: Values, a: string, b: string)
    ensures var line, r := Strip(raw), ReadLine(n, raw, values);
            && (line == "" || line[0] == '#' ==> r == Ok(values))
            && (line != "" && line[0] != '#' && '=' !in line ==> r == Err(NotKeyValue(n)))
            && (line != "" && line[0] != '#' && line == a + "=" + b && '=' !in a ==>
                  var key := Strip(a);
                  && (key != "ssid" && key != "passphrase" ==> r == Err(UnknownKey(n)))
                  && ((key == "ssid" || key == "passphrase") && key in values ==> r == Err(DuplicateKey(n)))
                  && ((key == "ssid" || key == "passphrase") && key !in values ==> r == Ok(values[key := Strip(b)])))
  {
    var line := Strip(raw);
    if line == a + "=" + b && '=' !in a {
      assert line[|a|] == '=' && forall k :: 0 <= k < |a| ==> line[k] == a[k];
      var i := IndexOf(line, '=');
      assert i == |a| && line[..i] == a && line[i + 1..] == b;
    }
  }

  predicate SaysNothing(raw: string) {
    Strip(raw) == "" || Strip(raw)[0] == '#'
  }

  /** The line number only matters for errors. */
  lemma NumberOnlyInErrors(n: nat, n': nat, raw: string, values: Values)
    ensures ReadLine(n, raw, values).Ok? <==> ReadLine(n', raw, values).Ok?
    ensures ReadLine(n, raw, values).Ok? ==> ReadLine(n, raw, values) == ReadLine(n', raw, values)
  {
  }

  /** A blank or comment line may stand anywhere: whether the lines are good, and what they say, stays the same. */
  lemma {:induction false} CommentsDoNotMatter(a: seq<string>, c: string, b: seq<string>)
    requires SaysNothing(c)
    ensures ReadLines(a + [c] + b).Ok? <==> ReadLines(a + b).Ok?
    ensures ReadLines(a + b).Ok? ==> ReadLines(a + [c] + b) == ReadLines(a + b)
    decreases |b|
  {
    if b == [] {
      assert a + [c] + b == a + [c] && a + b == a && (a + [c])[..|a|] == a;
    } else {
      var init, last := b[..|b| - 1], b[|b| - 1];
      CommentsDoNotMatter(a, c, init);
      assert (a + b)[..|a + b| - 1] == a + init && (a + [c] + b)[..|a + [c] + b| - 1] == a + [c] + init;
      if ReadLines(a + init).Ok? {
        NumberOnlyInErrors(|a + b|, |a + [c] + b|, last, ReadLines(a + init).value);
      }
    }
  }

  /** What is wrong with a pair, the first thing first; nothing, exactly when both are within the limits. */
  lemma ValidateExactly(values: Values)
    ensures Validate(values) == Err(MissingKey("ssid")) <==> "ssid" !in values
    ensures Validate(values) == Err(MissingKey("passphrase")) <==> "ssid" in values && "passphrase" !in values
    ensures "ssid" in values && "passphrase" in values ==>
              var ssid, passphrase, r := values["ssid"], values["passphrase"], Validate(values);
              var length, clean := 1 <= Utf8Length(ssid) <= 32, forall c :: c in ssid ==> !IsControl(c);
              var length', printable := 8 <= |passphrase| <= 63, forall c :: c in passphrase ==> IsPrintable(c);
              && (r == Err(BadSsidLength) <==> !length)
              && (r == Err(SsidHasControls) <==> length && !clean)
              && (r == Err(BadPassphraseLength) <==> length && clean && !length')
              && (r == Err(PassphraseNotPrintable) <==> length && clean && length' && !printable)
              && (r == Ok(Config(ssid, passphrase)) <==> length && clean && length' && printable)
  {
  }

  lemma {:induction false} FirstErrorStands(lines: seq<string>, n: nat)
    requires n <= |lines| && ReadLines(lines[..n]).Err?
    ensures ReadLines(lines) == ReadLines(lines[..n])
    decreases |lines|
  {
    if n == |lines| {
      assert lines[..n] == lines;
    } else {
      assert lines[..|lines| - 1][..n] == lines[..n];
      FirstErrorStands(lines[..|lines| - 1], n);
    }
  }

  lemma ReadOneMore(lines: seq<string>, i: nat, values: Values)
    requires i < |lines| && ReadLines(lines[..i]) == Ok(values)
    ensures ReadLines(lines[..i + 1]) == ReadLine(i + 1, lines[i], values)
    ensures ReadLine(i + 1, lines[i], values).Err? ==> ReadLines(lines) == ReadLine(i + 1, lines[i], values)
  {
    assert lines[..i + 1][..i] == lines[..i];
    if ReadLine(i + 1, lines[i], values).Err? {
      FirstErrorStands(lines, i + 1);
    }
  }

  method ParseDeploymentConf(text: string) returns (r: Result<Config>)
    ensures r == Parse(text)
  {
    var lines := SplitLines(text);
    var values: Values := map[];
    for i := 0 to |lines|
      invariant ReadLines(lines[..i]) == Ok(values)
    {
      ReadOneMore(lines, i, values);
      var line := Strip(lines[i]);
      if line == "" || line[0] == '#' {
        continue;
      }
      var at := IndexOf(line, '=');
      if at == |line| {
        return Err(NotKeyValue(i + 1));
      }
      var key := Strip(line[..at]);
      if key != "ssid" && key != "passphrase" {
        return Err(UnknownKey(i + 1));
      }
      if key in values {
        return Err(DuplicateKey(i + 1));
      }
      values := values[key := Strip(line[at + 1..])];
    }
    assert lines[..|lines|] == lines;
    return Validate(values);
  }

  /** What may be broadcast: the limits of IEEE 802.11 on both values, and no character that a line-oriented
      file would lose. */
  predicate Acceptable(c: Config) {
    && 1 <= Utf8Length(c.ssid) <= 32
    && OneLine(c.ssid) && Trimmed(c.ssid)
    && (forall i :: 0 <= i < |c.ssid| ==> !IsControl(c.ssid[i]))
    && 8 <= |c.passphrase| <= 63
    && Trimmed(c.passphrase)
    && (forall i :: 0 <= i < |c.passphrase| ==> IsPrintable(c.passphrase[i]))
  }

  lemma {:induction false} ValuesAreClean(lines: seq<string>)
    requires forall l :: l in lines ==> OneLine(l)
    ensures ReadLines(lines).Ok? ==>
              forall k :: k in ReadLines(lines).value ==>
                OneLine(ReadLines(lines).value[k]) && Trimmed(ReadLines(lines).value[k])
    decreases |lines|
  {
    if lines != [] {
      ValuesAreClean(lines[..|lines| - 1]);
      var raw := lines[|lines| - 1];
      var line := Strip(raw);
      StripCuts(raw);
      var i := IndexOf(line, '=');
      if i < |line| {
        StripCuts(line[i + 1..]);
      }
    }
  }

  /** The pair printed as two key=value lines. */
  function Print(c: Config): string {
    Entry("ssid", c.ssid) + "\n" + Entry("passphrase", c.passphrase) + "\n"
  }

  function Entry(key: string, value: string): string {
    key + "=" + value
  }

  function Unlines(lines: seq<string>): string {
    if lines == [] then "" else lines[0] + "\n" + Unlines(lines[1..])
  }

  lemma LineEndAt(l: string, t: string)
    requires OneLine(l)
    ensures LineEnd(l + "\n" + t) == |l|
  {
    var s := l + "\n" + t;
    assert s[|l|] == '\n' && forall k :: 0 <= k < |l| ==> s[k] == l[k];
  }

  lemma SplitOne(l: string, t: string)
    requires OneLine(l)
    ensures SplitLines(l + "\n" + t) == [l] + SplitLines(t)
  {
    var s := l + "\n" + t;
    LineEndAt(l, t);
    assert s[|l|] == '\n' && s[..|l|] == l && s[|l| + 1..] == t;
  }

  lemma {:induction false} SplitUnlines(lines: seq<string>)
    requires forall l :: l in lines ==> OneLine(l)
    ensures SplitLines(Unlines(lines)) == lines
  {
    if lines != [] {
      var l, later := lines[0], lines[1..];
      calc {
        SplitLines(Unlines(lines));
        { SplitOne(l, Unlines(later)); }
        [l] + SplitLines(Unlines(later));
        { SplitUnlines(later); }
        [l] + later;
        lines;
      }
    }
  }

  lemma ReadPrinted(n: nat, key: string, value: string, values: Values)
    requires key == "ssid" || key == "passphrase"
    requires key !in values && value != "" && Trimmed(value)
    ensures ReadLine(n, Entry(key, value), values) == Ok(values[key := value])
  {
    hide Strip, ReadLine;
    var line := Entry(key, value);
    assert Trimmed(key) && Trimmed(line);
    StripCuts(line);
    StripCuts(key);
    StripCuts(value);
    assert '=' !in key && line[0] == key[0];
    ReadLineExactly(n, line, values, key, value);
  }

  lemma PrintIsTwoLines(c: Config)
    requires OneLine(c.ssid) && OneLine(c.passphrase)
    ensures SplitLines(Print(c)) == [Entry("ssid", c.ssid), Entry("passphrase", c.passphrase)]
  {
    var a, b := Entry("ssid", c.ssid), Entry("passphrase", c.passphrase);
    calc {
      Unlines([a, b]);
      { assert [a, b][1..] == [b]; }
      a + "\n" + Unlines([b]);
      { assert [b][1..] == []; }
      a + "\n" + (b + "\n" + Unlines([]));
      Print(c);
    }
    assert OneLine(a) && OneLine(b);
    SplitUnlines([a, b]);
  }

  lemma PrintedReads(c: Config) returns (a: string, b: string, one: Values, two: Values)
    requires Acceptable(c)
    ensures SplitLines(Print(c)) == [a, b]
    ensures ReadLine(1, a, map[]) == Ok(one) && ReadLine(2, b, one) == Ok(two)
    ensures two == map["ssid" := c.ssid, "passphrase" := c.passphrase]
  {
    a, b := Entry("ssid", c.ssid), Entry("passphrase", c.passphrase);
    one := map["ssid" := c.ssid];
    two := one["passphrase" := c.passphrase];
    PrintIsTwoLines(c);
    ReadPrinted(1, "ssid", c.ssid, map[]);
    ReadPrinted(2, "passphrase", c.passphrase, one);
  }

  /** Printing an acceptable pair and parsing it again gives the pair back. */
  lemma PrintParses(c: Config)
    requires Acceptable(c)
    ensures Parse(Print(c)) == Ok(c)
  {
    var a, b, one, two := PrintedReads(c);
    ParseTwo(Print(c), a, b, one, two);
    ValidateAccepts(c, two);
  }

  lemma ParseTwo(text: string, a: string, b: string, one: Values, two: Values)
    requires SplitLines(text) == [a, b]
    requires ReadLine(1, a, map[]) == Ok(one) && ReadLine(2, b, one) == Ok(two)
    ensures Parse(text) == Validate(two)
  {
    ReadTwo(a, b, one, two);
  }

  lemma ReadTwo(a: string, b: string, one: Values, two: Values)
    requires ReadLine(1, a, map[]) == Ok(one) && ReadLine(2, b, one) == Ok(two)
    ensures ReadLines([a, b]) == Ok(two)
  {
    assert [a][..0] == [] && [a, b][..1] == [a];
    assert ReadLines([a]) == ReadLine(1, a, map[]);
  }

  lemma ValidateAccepts(c: Config, values: Values)
    requires Acceptable(c) && "ssid" in values && "passphrase" in values
    requires values["ssid"] == c.ssid && values["passphrase"] == c.passphrase
    ensures Validate(values) == Ok(c)
  {
  }

  ghost predicate Parseable(c: Config) {
    exists text :: Parse(text) == Ok(c)
  }

  /** The parser lets through exactly the acceptable pairs. */
  lemma ParserAccepts(c: Config)
    ensures Parseable(c) <==> Acceptable(c)
  {
    if Acceptable(c) {
      PrintParses(c);
    }
    if Parseable(c) {
      var text :| Parse(text) == Ok(c);
      ValuesAreClean(SplitLines(text));
    }
  }

  // ------------------------------------- hostapd_config.py and hostapd.py

  function Decimal(n: nat): string
    requires n < 100
  {
    (if n < 10 then "" else ['0' + (n / 10) as char]) + ['0' + (n % 10) as char]
  }

  /** A comment line of the file. */
  predicate IsNote(l: string) {
    OneLine(l) && l != "" && l[0] == '#'
  }

  /** The wording of the file's six comment lines, whatever it is. */
  predicate AreNotes(notes: seq<string>) {
    |notes| == 6 && forall i :: 0 <= i < 6 ==> IsNote(notes[i])
  }

  /** The rendered file, line by line. */
  function ConfLines(c: Config, iface: string, channel: nat, notes: seq<string>): seq<string>
    requires channel < 100 && |notes| == 6
  {
    Above(iface, notes) + ["ssid=" + c.ssid] + Below(channel) + ["wpa_passphrase=" + c.passphrase] + Tail(notes)
  }

  function Above(iface: string, notes: seq<string>): seq<string>
    requires |notes| == 6
  {
    notes[..3] + ["interface=" + iface, "driver=nl80211", ""]
  }

  function Below(channel: nat): seq<string>
    requires channel < 100
  {
    ["hw_mode=g", "channel=" + Decimal(channel), "ieee80211n=1", "wmm_enabled=1", "",
     "auth_algs=1", "wpa=2", "wpa_key_mgmt=WPA-PSK", "rsn_pairwise=CCMP"]
  }

  function Tail(notes: seq<string>): seq<string>
    requires |notes| == 6
  {
    [""] + notes[3..] + ["rrm_neighbor_report=1", "bss_transition=1"]
  }

  function Render(c: Config, iface: string, channel: int, notes: seq<string>): Option<string>
    requires |notes| == 6
  {
    if 1 <= channel <= 13 then Some(Unlines(ConfLines(c, iface, channel, notes))) else None
  }

  predicate IsSsidLine(line: string) {
    |line| >= 5 && line[..5] == "ssid="
  }

  function FirstSsid(lines: seq<string>): Option<string> {
    if lines == [] then None
    else if IsSsidLine(lines[0]) then Some(lines[0][5..])
    else FirstSsid(lines[1..])
  }

  /** `Unreadable` is the OSError of reading a file, `Undecodable` the UnicodeDecodeError. */
  datatype File = Unreadable | Undecodable | Text(text: string)

  /** `configured_ssid`. Only a file that cannot be read counts as one without an SSID. */
  method ConfiguredSsid(file: File) returns (ssid: Option<string>, raised: bool)
    ensures raised <==> file.Undecodable?
    ensures ssid == if file.Text? then FirstSsid(SplitLines(file.text)) else None
  {
    if !file.Text? {
      return None, file.Undecodable?;
    }
    var lines := SplitLines(file.text);
    for i := 0 to |lines|
      invariant FirstSsid(lines) == FirstSsid(lines[i..])
    {
      if IsSsidLine(lines[i]) {
        return Some(lines[i][5..]), false;
      }
    }
    return None, false;
  }

  lemma {:induction false} NoSsidFound(lines: seq<string>)
    ensures FirstSsid(lines).None? <==> forall l :: l in lines ==> !IsSsidLine(l)
  {
    if lines != [] {
      NoSsidFound(lines[1..]);
      assert lines == [lines[0]] + lines[1..];
    }
  }

  lemma {:induction false} FirstSsidAt(lines: seq<string>, n: nat)
    requires n < |lines| && IsSsidLine(lines[n])
    requires forall i :: 0 <= i < n ==> !IsSsidLine(lines[i])
    ensures FirstSsid(lines) == Some(lines[n][5..])
  {
    if n > 0 {
      FirstSsidAt(lines[1..], n - 1);
    }
  }

  /** A line of its own that cannot be taken for the SSID. */
  predicate OtherLine(l: string) {
    OneLine(l) && (l == "" || l[0] != 's')
  }

  lemma AboveIsOther(iface: string, notes: seq<string>)
    requires OneLine(iface) && AreNotes(notes)
    ensures |Above(iface, notes)| == 6 && forall i :: 0 <= i < 6 ==> OtherLine(Above(iface, notes)[i])
  {
    assert ("interface=" + iface)[0] == 'i' && OneLine("interface=" + iface);
    assert OtherLine("driver=nl80211");
  }

  lemma ChannelIsOther(channel: nat)
    requires 1 <= channel <= 13
    ensures OtherLine("channel=" + Decimal(channel))
  {
    assert OneLine(Decimal(channel));
    assert OneLine("channel=" + Decimal(channel)) && ("channel=" + Decimal(channel))[0] == 'c';
  }

  lemma BelowIsOther(channel: nat)
    requires 1 <= channel <= 13
    ensures forall i :: 0 <= i < 9 ==> OtherLine(Below(channel)[i])
  {
    ChannelIsOther(channel);
    assert OtherLine("hw_mode=g") && OtherLine("ieee80211n=1") && OtherLine("wmm_enabled=1");
    assert OtherLine("auth_algs=1") && OtherLine("wpa=2");
    assert OtherLine("wpa_key_mgmt=WPA-PSK") && OtherLine("rsn_pairwise=CCMP");
  }

  lemma TailIsOther(notes: seq<string>)
    requires AreNotes(notes)
    ensures |Tail(notes)| == 6 && forall i :: 0 <= i < 6 ==> OtherLine(Tail(notes)[i])
  {
    assert OtherLine("rrm_neighbor_report=1") && OtherLine("bss_transition=1");
  }

  lemma RenderedLines(c: Config, iface: string, channel: nat, notes: seq<string>)
    requires Acceptable(c) && OneLine(iface) && 1 <= channel <= 13 && AreNotes(notes)
    ensures |ConfLines(c, iface, channel, notes)| == 23
    ensures ConfLines(c, iface, channel, notes)[6] == "ssid=" + c.ssid
    ensures forall i :: 0 <= i < 23 && i != 6 ==> OtherLine(ConfLines(c, iface, channel, notes)[i])
  {
    AboveIsOther(iface, notes);
    BelowIsOther(channel);
    TailIsOther(notes);
    PassphraseIsOther(c);
    Sections(Above(iface, notes), "ssid=" + c.ssid, Below(channel), "wpa_passphrase=" + c.passphrase, Tail(notes));
  }

  lemma PassphraseIsOther(c: Config)
    requires Acceptable(c)
    ensures OtherLine("wpa_passphrase=" + c.passphrase)
  {
    assert ("wpa_passphrase=" + c.passphrase)[0] == 'w';
  }

  lemma Sections(above: seq<string>, ssid: string, below: seq<string>, pass: string, tail: seq<string>)
    requires |above| == 6 && |below| == 9 && |tail| == 6
    requires forall i :: 0 <= i < 6 ==> OtherLine(above[i])
    requires forall i :: 0 <= i < 9 ==> OtherLine(below[i])
    requires forall i :: 0 <= i < 6 ==> OtherLine(tail[i])
    requires OtherLine(pass)
    ensures var lines := above + [ssid] + below + [pass] + tail;
            |lines| == 23 && lines[6] == ssid && forall i :: 0 <= i < 23 && i != 6 ==> OtherLine(lines[i])
  {
  }

  /** Whatever was parsed, the rendered file always has the same 23 lines' shape, exactly one of them sets the
      SSID, and reading the file back gives the parsed SSID. */
  lemma RenderedReadsBack(text: string, c: Config, iface: string, channel: int, notes: seq<string>)
    requires Parse(text) == Ok(c) && OneLine(iface) && 1 <= channel <= 13 && AreNotes(notes)
    ensures var lines := SplitLines(Render(c, iface, channel, notes).value);
            && |lines| == 23
            && (forall i :: 0 <= i < |lines| ==> (IsSsidLine(lines[i]) <==> i == 6))
            && FirstSsid(lines) == Some(c.ssid)
  {
    assert Parseable(c);
    ParserAccepts(c);
    RenderedLines(c, iface, channel, notes);
    SsidLine(c.ssid);
    SplitUnlines(ConfLines(c, iface, channel, notes));
    FirstSsidAt(ConfLines(c, iface, channel, notes), 6);
  }

  lemma DecimalDigits(n: nat)
    requires n < 100
    ensures var d := Decimal(n);
            && (n < 10 ==> |d| == 1 && d[0] as int == '0' as int + n)
            && (n >= 10 ==> |d| == 2 && 10 * (d[0] as int - '0' as int) + (d[1] as int - '0' as int) == n
                            && '1' <= d[0] <= '9' && '0' <= d[1] <= '9')
  {
  }

  /** The file, line by line, as it is read back: both values, the channel and every fixed setting. A channel off
      the 2.4 GHz band gets no file. */
  lemma RenderedSettings(c: Config, iface: string, channel: int, notes: seq<string>)
    requires Acceptable(c) && OneLine(iface) && AreNotes(notes)
    ensures Render(c, iface, channel, notes).Some? <==> 1 <= channel <= 13
    ensures 1 <= channel <= 13 ==>
              SplitLines(Render(c, iface, channel, notes).value) ==
              [notes[0], notes[1], notes[2], "interface=" + iface, "driver=nl80211", "",
               "ssid=" + c.ssid, "hw_mode=g", "channel=" + Decimal(channel), "ieee80211n=1", "wmm_enabled=1", "",
               "auth_algs=1", "wpa=2", "wpa_key_mgmt=WPA-PSK", "rsn_pairwise=CCMP", "wpa_passphrase=" + c.passphrase, "",
               notes[3], notes[4], notes[5], "rrm_neighbor_report=1", "bss_transition=1"]
  {
    if 1 <= channel <= 13 {
      RenderedLines(c, iface, channel, notes);
      SsidLine(c.ssid);
      SplitUnlines(ConfLines(c, iface, channel, notes));
      Flatly(notes, "interface=" + iface, "driver=nl80211", "", "ssid=" + c.ssid, Below(channel),
             "wpa_passphrase=" + c.passphrase, "rrm_neighbor_report=1", "bss_transition=1");
    }
  }

  /** The five stretches of the file as one list. */
  lemma Flatly(n: seq<string>, iface: string, driver: string, blank: string, ssid: string, b: seq<string>, pass: string,
               rrm: string, bss: string)
    requires |n| == 6 && |b| == 9
    ensures (n[..3] + [iface, driver, blank]) + [ssid] + b + [pass] + ([blank] + n[3..] + [rrm, bss]) ==
            [n[0], n[1], n[2], iface, driver, blank, ssid, b[0], b[1], b[2], b[3], b[4], b[5], b[6], b[7], b[8], pass,
             blank, n[3], n[4], n[5], rrm, bss]
  {
  }

  lemma SsidLine(ssid: string)
    requires OneLine(ssid)
    ensures OneLine("ssid=" + ssid) && IsSsidLine("ssid=" + ssid) && ("ssid=" + ssid)[5..] == ssid
    ensures forall l :: OtherLine(l) ==> !IsSsidLine(l)
  {
    var l := "ssid=" + ssid;
    assert l[..5] == "ssid=";
    forall l | OtherLine(l) ensures !IsSsidLine(l) {
      if |l| >= 5 {
        assert l[..5][0] == l[0] && "ssid="[0] == 's';
      }
    }
  }
}
