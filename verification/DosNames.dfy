/** What the drive reads into a file name: the name itself, the type and mode behind commas, and for a
    directory the filters. */
module DosNames {
  import opened BlockTables
  import opened Directory
  import Glob

  type Byte = bv8

  const NAME_LIMIT := 16
  const NO_FILTERS := Filters("", "", "", false)

  // ---- splitting at commas ------------------------------------------------------------------------

  function Split(s: string): (parts: seq<string>)
    ensures parts != []
  {
    if s == [] then [[]]
    else
      var rest := Split(s[1..]);
      if s[0] == ',' then [[]] + rest else [[s[0]] + rest[0]] + rest[1..]
  }

  function Join(parts: seq<string>): string
    requires parts != []
  {
    if |parts| == 1 then parts[0] else parts[0] + "," + Join(parts[1..])
  }

  predicate CommaFree(s: string) {
    ',' !in s
  }

  lemma JoinGrows(c: char, parts: seq<string>)
    requires parts != []
    ensures Join([[c] + parts[0]] + parts[1..]) == [c] + Join(parts)
  {
    JoinUnfolds(parts);
    JoinUnfolds([[c] + parts[0]] + parts[1..]);
    hide Join;
    assert ([[c] + parts[0]] + parts[1..])[1..] == parts[1..];
    if |parts| > 1 {
      Regroup([c], parts[0], "," + Join(parts[1..]));
    }
  }

  lemma Regroup(a: string, b: string, c: string)
    ensures a + b + c == a + (b + c)
  {
  }

  lemma JoinUnfolds(parts: seq<string>)
    requires parts != []
    ensures Join(parts) == if |parts| == 1 then parts[0] else parts[0] + ("," + Join(parts[1..]))
  {
    if |parts| > 1 { Regroup(parts[0], ",", Join(parts[1..])); }
  }

  lemma JoinStarts(parts: seq<string>)
    requires parts != []
    ensures Join([[]] + parts) == "," + Join(parts)
  {
    JoinUnfolds([[]] + parts);
    hide Join;
    assert ([[]] + parts)[1..] == parts;
    assert [] + ("," + Join(parts)) == "," + Join(parts);
  }

  /** The parts hold no comma and are the text again when joined by commas. */
  lemma {:induction false} SplitIsExact(s: string)
    ensures Join(Split(s)) == s
    ensures forall i :: 0 <= i < |Split(s)| ==> CommaFree(Split(s)[i])
  {
    if s == [] {
      assert Split(s) == [[]];
    } else {
      var rest := Split(s[1..]);
      SplitIsExact(s[1..]);
      JoinGrows(s[0], rest);
      JoinStarts(rest);
      assert s == [s[0]] + s[1..];
      assert Split(s) == if s[0] == ',' then [[]] + rest else [[s[0]] + rest[0]] + rest[1..];
      hide Join, Split;
    }
  }

  /** The first comma ends the first part. */
  lemma {:induction false} SplitAtComma(a: string, b: string)
    requires CommaFree(a)
    ensures Split(a + "," + b) == [a] + Split(b)
  {
    var s := a + "," + b;
    if a == [] {
      assert s[1..] == b;
    } else {
      assert s[1..] == a[1..] + "," + b;
      SplitAtComma(a[1..], b);
      assert [a[0]] + a[1..] == a;
    }
  }

  lemma {:induction false} SplitWhole(a: string)
    requires CommaFree(a)
    ensures Split(a) == [a]
  {
    if a != [] {
      SplitWhole(a[1..]);
      assert [a[0]] + a[1..] == a;
    }
  }

  /** The parts with more text in front of the first. */
  function Prefixed(text: string, parts: seq<string>): seq<string>
    requires parts != []
  {
    [text + parts[0]] + parts[1..]
  }

  lemma PrefixedStep(token: string, s: string)
    requires s != []
    ensures Prefixed(token, Split(s))
         == if s[0] == ',' then [token] + Prefixed("", Split(s[1..])) else Prefixed(token + [s[0]], Split(s[1..]))
  {
    var rest := Split(s[1..]);
    assert "" + rest[0] == rest[0];
    if s[0] == ',' {
      assert [rest[0]] + rest[1..] == rest;
      assert token + [] == token;
    } else {
      assert token + ([s[0]] + rest[0]) == token + [s[0]] + rest[0];
    }
  }

  lemma PrefixedNothing(parts: seq<string>)
    requires parts != []
    ensures Prefixed("", parts) == parts
  {
    assert "" + parts[0] == parts[0];
  }

  method SplitComma(s: string) returns (parts: seq<string>)
    ensures parts == Split(s)
  {
    parts := [];
    var token := "";
    assert s[0..] == s;
    PrefixedNothing(Split(s));
    for i := 0 to |s|
      invariant Split(s) == parts + Prefixed(token, Split(s[i..]))
    {
      assert s[i..][1..] == s[i + 1..];
      PrefixedStep(token, s[i..]);
      hide Prefixed, Split;
      if s[i] == ',' {
        assert parts + ([token] + Prefixed("", Split(s[i + 1..]))) == parts + [token] + Prefixed("", Split(s[i + 1..]));
        parts := parts + [token];
        token := "";
      } else {
        token := token + [s[i]];
      }
    }
    assert s[|s|..] == [];
    assert token + [] == token;
    parts := parts + [token];
  }

  // ---- trimming ---------------------------------------------------------------------------------------

  predicate Blank(c: char) {
    c == ' ' || c == '\t'
  }

  function TrimLeft(s: string): string {
    if s != [] && Blank(s[0]) then TrimLeft(s[1..]) else s
  }

  function TrimRight(s: string): string {
    if s != [] && Blank(s[|s| - 1]) then TrimRight(s[..|s| - 1]) else s
  }

  function Trim(s: string): string {
    TrimRight(TrimLeft(s))
  }

  predicate Trimmed(s: string) {
    s == [] || (!Blank(s[0]) && !Blank(s[|s| - 1]))
  }

  lemma {:induction false} TrimLeftCuts(s: string)
    ensures exists i :: 0 <= i <= |s| && TrimLeft(s) == s[i..]
    ensures TrimLeft(s) == [] || !Blank(TrimLeft(s)[0])
  {
    if s != [] && Blank(s[0]) {
      TrimLeftCuts(s[1..]);
      var i :| 0 <= i <= |s| - 1 && TrimLeft(s[1..]) == s[1..][i..];
      assert s[1..][i..] == s[i + 1..];
    } else {
      assert s == s[0..];
    }
  }

  lemma {:induction false} TrimRightCuts(s: string)
    ensures exists j :: 0 <= j <= |s| && TrimRight(s) == s[..j]
    ensures TrimRight(s) == [] || !Blank(TrimRight(s)[|TrimRight(s)| - 1])
  {
    if s != [] && Blank(s[|s| - 1]) {
      TrimRightCuts(s[..|s| - 1]);
      var j :| 0 <= j <= |s| - 1 && TrimRight(s[..|s| - 1]) == s[..|s| - 1][..j];
      assert s[..|s| - 1][..j] == s[..j];
    } else {
      assert s == s[..|s|];
    }
  }

  /** Trimming yields a stretch of the text that neither begins nor ends with a blank, and leaves a text
      alone exactly if it is such a stretch already. */
  lemma {:induction false} TrimIsExact(s: string)
    ensures Trimmed(Trim(s))
    ensures exists i, j :: 0 <= i <= j <= |s| && Trim(s) == s[i..j]
    ensures Trim(s) == s <==> Trimmed(s)
  {
    TrimTrims(s);
    TrimCuts(s);
    hide Trim;
    if Trimmed(s) { TrimLeaves(s); }
  }

  lemma {:induction false} TrimTrims(s: string)
    ensures Trimmed(Trim(s))
  {
    hide Blank;
    TrimLeftCuts(s);
    TrimRightCuts(TrimLeft(s));
  }

  lemma {:induction false} TrimCuts(s: string)
    ensures exists i, j :: 0 <= i <= j <= |s| && Trim(s) == s[i..j]
  {
    hide Blank, TrimLeft, TrimRight;
    TrimLeftCuts(s);
    var i :| 0 <= i <= |s| && TrimLeft(s) == s[i..];
    TrimRightCuts(s[i..]);
    var j :| 0 <= j <= |s| - i && Trim(s) == s[i..][..j];
    assert s[i..][..j] == s[i..i + j];
  }

  lemma {:induction false} TrimLeaves(s: string)
    requires Trimmed(s)
    ensures Trim(s) == s
  {
    hide Blank;
  }

  method TrimAscii(s: string) returns (r: string)
    ensures r == Trim(s)
  {
    var b := 0;
    while b < |s| && Blank(s[b])
      invariant 0 <= b <= |s| && TrimLeft(s[b..]) == TrimLeft(s)
    {
      assert s[b..][1..] == s[b + 1..];
      b := b + 1;
    }
    assert b < |s| ==> s[b..][0] == s[b];
    assert TrimLeft(s) == s[b..];
    var e := |s|;
    assert s[b..e] == s[b..];
    while e > b && Blank(s[e - 1])
      invariant b <= e <= |s| && TrimRight(s[b..e]) == TrimRight(s[b..])
    {
      assert s[b..e][..|s[b..e]| - 1] == s[b..e - 1];
      e := e - 1;
    }
    r := s[b..e];
  }

  // ---- names ---------------------------------------------------------------------------------------------

  function Char(b: Byte): char {
    b as int as char
  }

  /** The name behind the bytes: upper case, printable, without quotes, cut at sixteen characters. */
  function OpenNameFrom(raw: seq<Byte>, out: string): string
    decreases |raw|
  {
    if raw == [] || raw[0] == 0x00 || raw[0] == 0x0D then out
    else
      var c := Glob.UpperChar(Char(raw[0]));
      if c == '"' then OpenNameFrom(raw[1..], out)
      else
        var next := if ' ' <= c <= '~' then out + [c] else out;
        if |next| >= NAME_LIMIT then next else OpenNameFrom(raw[1..], next)
  }

  function OpenName(raw: seq<Byte>): string {
    OpenNameFrom(raw, [])
  }

  method NormalizeOpenName(raw: seq<Byte>) returns (out: string)
    ensures out == OpenName(raw)
  {
    out := [];
    var i := 0;
    while i < |raw|
      invariant 0 <= i <= |raw| && OpenNameFrom(raw[i..], out) == OpenName(raw)
    {
      if raw[i] == 0x00 || raw[i] == 0x0D {
        break;
      }
      assert raw[i..][1..] == raw[i + 1..];
      var c := Glob.UpperChar(Char(raw[i]));
      i := i + 1;
      if c == '"' {
        continue;
      }
      if ' ' <= c <= '~' {
        out := out + [c];
      }
      if |out| >= NAME_LIMIT {
        break;
      }
    }
  }

  /** A character a name can hold. */
  predicate NameChar(c: char) {
    ' ' <= c <= '~' && c != '"' && !('a' <= c <= 'z')
  }

  predicate NameText(s: string) {
    forall i :: 0 <= i < |s| ==> NameChar(s[i])
  }

  lemma {:induction false} OpenNameIsText(raw: seq<Byte>, out: string)
    requires NameText(out) && |out| < NAME_LIMIT
    ensures NameText(OpenNameFrom(raw, out)) && |OpenNameFrom(raw, out)| <= NAME_LIMIT
    decreases |raw|
  {
    if !(raw == [] || raw[0] == 0x00 || raw[0] == 0x0D) {
      var c := Glob.UpperChar(Char(raw[0]));
      hide Char;
      var next := if ' ' <= c <= '~' && c != '"' then out + [c] else out;
      if |next| < NAME_LIMIT {
        OpenNameIsText(raw[1..], next);
      }
    }
  }

  /** What fits into a name. */
  function Cut(s: string): string {
    if |s| <= NAME_LIMIT then s else s[..NAME_LIMIT]
  }

  /** Bytes that spell a name are read as that name, as far as it fits. */
  lemma {:induction false} OpenNameReads(raw: seq<Byte>, out: string)
    requires |out| < NAME_LIMIT
    requires forall i :: 0 <= i < |raw| ==> NameChar(Char(raw[i]))
    ensures OpenNameFrom(raw, out) == Cut(out + Spelled(raw))
    decreases |raw|
  {
    if raw == [] {
      assert out + Spelled(raw) == out;
    } else {
      ControlsAreNoNames(raw[0]);
      var c := Char(raw[0]);
      assert NameChar(c);
      hide Char;
      assert out + [c] + Spelled(raw[1..]) == out + Spelled(raw);
      if |out| + 1 < NAME_LIMIT {
        OpenNameReads(raw[1..], out + [c]);
      } else {
        assert Cut(out + Spelled(raw)) == out + [c];
      }
    }
  }

  lemma ControlsAreNoNames(b: Byte)
    requires NameChar(Char(b))
    ensures b != 0x00 && b != 0x0D
  {
  }

  function Spelled(raw: seq<Byte>): (s: string)
    ensures |s| == |raw|
  {
    seq(|raw|, i requires 0 <= i < |raw| => Char(raw[i]))
  }

  function Unquoted(s: string): string {
    if |s| >= 2 && s[0] == '"' && s[|s| - 1] == '"' then s[1..|s| - 1] else s
  }

  // ---- what OPEN leaves behind ---------------------------------------------------------------------------

  function WithOption(o: OpenSpec, token: string): OpenSpec {
    if token == "P" then o.(kind := "PRG")
    else if token == "S" then o.(kind := "SEQ")
    else if token == "U" then o.(kind := "USR")
    else if token == "L" then o.(kind := "REL")
    else if token == "W" || token == "R" || token == "A" then o.(mode := token)
    else o
  }

  function WithOptions(o: OpenSpec, tokens: seq<string>): OpenSpec
    decreases |tokens|
  {
    if tokens == [] then o else WithOptions(WithOption(o, Trim(tokens[0])), tokens[1..])
  }

  function SpecOf(raw: seq<Byte>): OpenSpec {
    var parts := Split(Glob.Normalized(OpenName(raw)));
    var name := Unquoted(Trim(parts[0]));
    WithOptions(OpenSpec(name != "", name, "PRG", ""), parts[1..])
  }

  method ParseOpenSpec(raw: seq<Byte>) returns (o: OpenSpec)
    ensures o == SpecOf(raw)
  {
    var text := NormalizeOpenName(raw);
    var up := Glob.NormalizeUpperAscii(text);
    var parts := SplitComma(up);
    var name := TrimAscii(parts[0]);
    name := Unquoted(name);
    o := OpenSpec(name != "", name, "PRG", "");
    for i := 1 to |parts|
      invariant WithOptions(o, parts[i..]) == SpecOf(raw)
    {
      assert parts[i..][1..] == parts[i + 1..];
      var token := TrimAscii(parts[i]);
      o := WithOption(o, token);
    }
  }

  /** Names the catalog may take over: short and printable, with one of four types and three modes. */
  predicate SpecOk(o: OpenSpec) {
    |o.name| <= NAME_LIMIT && Plain(o.name) && o.kind in {"PRG", "SEQ", "USR", "REL"} && o.mode in {"", "W", "R", "A"}
  }

  lemma {:induction false} OptionsKeepSpecOk(o: OpenSpec, tokens: seq<string>)
    requires SpecOk(o)
    ensures SpecOk(WithOptions(o, tokens))
    decreases |tokens|
  {
    if tokens != [] {
      OptionsKeepSpecOk(WithOption(o, Trim(tokens[0])), tokens[1..]);
    }
  }

  lemma {:induction false} NormalizedIsPlain(s: string)
    ensures Plain(Glob.Normalized(s)) && |Glob.Normalized(s)| <= |s|
  {
    if s != [] { NormalizedIsPlain(s[1..]); }
  }

  lemma {:induction false} FirstPartIsShort(s: string)
    ensures |Split(s)[0]| <= |s|
    ensures Plain(s) ==> Plain(Split(s)[0])
  {
    if s != [] {
      FirstPartIsShort(s[1..]);
      assert s[1..] == s[1..];
    }
  }

  /** Whatever the host sends as a name, OPEN leaves a presentable name, type and mode. */
  lemma SpecIsOk(raw: seq<Byte>)
    ensures SpecOk(SpecOf(raw))
  {
    var up := Glob.Normalized(OpenName(raw));
    OpenNameIsText(raw, []);
    NormalizedIsPlain(OpenName(raw));
    FirstPartIsShort(up);
    hide WithOptions, OpenName, Split;
    var parts := Split(up);
    TrimmedIsPlain(parts[0]);
    hide Trim, Unquoted;
    var name := Unquoted(Trim(parts[0]));
    OptionsKeepSpecOk(OpenSpec(name != "", name, "PRG", ""), parts[1..]);
  }

  lemma TrimmedIsPlain(s: string)
    requires Plain(s)
    ensures Plain(Unquoted(Trim(s))) && |Unquoted(Trim(s))| <= |s|
  {
    TrimIsExact(s);
    var i, j :| 0 <= i <= j <= |s| && Trim(s) == s[i..j];
    var t := Trim(s);
    assert forall k :: 0 <= k < |t| ==> t[k] == s[i + k];
  }

  // ---- directory filters --------------------------------------------------------------------------------------

  function KindOf(token: string): string {
    if token == "P" then "PRG"
    else if token == "S" then "SEQ"
    else if token == "U" then "USR"
    else if token == "L" then "REL"
    else ""
  }

  function ModeOf(token: string): (string, bool) {
    var negated := token != "" && token[0] == '!';
    var letter := if negated then Trim(token[1..]) else token;
    if letter == "R" || letter == "W" || letter == "A" then (letter, negated) else ("", false)
  }

  function Token(part: string): string {
    Trim(Glob.Normalized(part))
  }

  /** The filters in a directory name: a pattern after the `$`, then type and mode. */
  function FiltersOf(raw: seq<Byte>): Filters {
    var spec := OpenName(raw);
    var parts := Split(spec);
    var first := Unquoted(Trim(parts[0]));
    if spec == "" || first == "" || first[0] != '$' then NO_FILTERS
    else
      var mode := if |parts| >= 3 then ModeOf(Token(parts[2])) else ("", false);
      Filters(Token(first[1..]), if |parts| >= 2 then KindOf(Token(parts[1])) else "", mode.0, mode.1)
  }

  method ExtractDirectoryFilters(raw: seq<Byte>) returns (f: Filters)
    ensures f == FiltersOf(raw)
  {
    var spec := NormalizeOpenName(raw);
    if spec == "" {
      return NO_FILTERS;
    }
    var parts := SplitComma(spec);
    var first := TrimAscii(parts[0]);
    first := Unquoted(first);
    if first == "" || first[0] != '$' {
      return NO_FILTERS;
    }
    var pattern := ReadToken(first[1..]);
    var kind, mode, negated := "", "", false;
    if |parts| >= 2 {
      var t := ReadToken(parts[1]);
      kind := KindOf(t);
    }
    if |parts| >= 3 {
      var m := ReadToken(parts[2]);
      if m != "" && m[0] == '!' {
        negated := true;
        m := TrimAscii(m[1..]);
      }
      if m == "R" || m == "W" || m == "A" {
        mode := m;
      } else {
        negated := false;
      }
    }
    f := Filters(pattern, kind, mode, negated);
  }

  method ReadToken(part: string) returns (r: string)
    ensures r == Token(part)
  {
    var up := Glob.NormalizeUpperAscii(part);
    r := TrimAscii(up);
  }

  lemma {:induction false} NameTextIsNormal(s: string)
    requires NameText(s)
    ensures Glob.Normalized(s) == s
  {
    if s != [] {
      assert NameChar(s[0]);
      assert NameText(s[1..]) by {
        forall i | 0 <= i < |s| - 1 ensures NameChar(s[1..][i]) { assert s[1..][i] == s[i + 1]; }
      }
      NameTextIsNormal(s[1..]);
      assert [s[0]] + s[1..] == s;
    }
  }

  lemma TokenStays(s: string)
    requires NameText(s) && Trimmed(s)
    ensures Token(s) == s
  {
    NameTextIsNormal(s);
    TrimIsExact(s);
  }

  function DirectoryName(pattern: string, kind: string, mode: string): string {
    "$" + pattern + "," + (kind + "," + mode)
  }

  /** A directory name reads back as its own filters, pattern, type letter, and mode letter with or without
      a `!`, if and only if it fits; a longer one is cut before it is taken apart and loses its mode. */
  lemma FiltersReadBackIff(raw: seq<Byte>, pattern: string, kind: string, mode: string, negated: bool)
    requires Spelled(raw) == DirectoryName(pattern, kind, (if negated then "!" else "") + mode)
    requires NameText(pattern) && CommaFree(pattern) && Trimmed(pattern)
    requires kind in {"P", "S", "U", "L"} && mode in {"R", "W", "A"}
    ensures FiltersOf(raw) == Filters(pattern, KindOf(kind), mode, negated) <==> |raw| <= NAME_LIMIT
  {
    if |raw| <= NAME_LIMIT {
      FittingNameReads(raw, pattern, kind, mode, negated);
    } else {
      LongNameLosesMode(raw, pattern, kind, mode, negated);
    }
    hide *;
  }

  lemma FittingNameReads(raw: seq<Byte>, pattern: string, kind: string, mode: string, negated: bool)
    requires Spelled(raw) == DirectoryName(pattern, kind, (if negated then "!" else "") + mode) && |raw| <= NAME_LIMIT
    requires NameText(pattern) && CommaFree(pattern) && Trimmed(pattern)
    requires kind in {"P", "S", "U", "L"} && mode in {"R", "W", "A"}
    ensures FiltersOf(raw) == Filters(pattern, KindOf(kind), mode, negated)
  {
    var m := (if negated then "!" else "") + mode;
    LettersAreText(kind, mode, negated);
    hide *;
    NameParts(raw, pattern, kind, m);
    FirstIsPattern(pattern);
    TokenStays(pattern);
    TokenStays(kind);
    TokenStays(m);
    assert mode == "R" || mode == "W" || mode == "A";
    ModeReads(mode, negated);
    FiltersFromParts(raw, "$" + pattern, kind, m);
  }

  lemma LongNameLosesMode(raw: seq<Byte>, pattern: string, kind: string, mode: string, negated: bool)
    requires Spelled(raw) == DirectoryName(pattern, kind, (if negated then "!" else "") + mode) && |raw| > NAME_LIMIT
    requires NameText(pattern) && CommaFree(pattern)
    requires kind in {"P", "S", "U", "L"} && mode in {"R", "W", "A"}
    ensures FiltersOf(raw).mode == ""
  {
    var m := (if negated then "!" else "") + mode;
    LettersAreText(kind, mode, negated);
    assert |kind| == 1 && 1 <= |m| <= 2 && (|m| == 2 ==> m[0] == '!');
    hide *;
    NameIsCut(raw, pattern, kind, m);
    CutLosesMode("$" + pattern, kind, m);
    UnreadMode(raw);
  }

  lemma NameIsCut(raw: seq<Byte>, pattern: string, kind: string, m: string)
    requires Spelled(raw) == DirectoryName(pattern, kind, m)
    requires NameText(pattern) && NameText(kind) && NameText(m)
    ensures OpenName(raw) == Cut("$" + pattern + "," + (kind + "," + m))
  {
    DirectoryNameIsText(pattern, kind, m);
    forall i | 0 <= i < |raw| ensures NameChar(Char(raw[i])) { assert Spelled(raw)[i] == Char(raw[i]); }
    OpenNameReads(raw, []);
    assert [] + Spelled(raw) == Spelled(raw);
  }

  /** Cut short, the third part of a name is empty or a lone `!`. */
  lemma CutLosesMode(head: string, kind: string, m: string)
    requires CommaFree(head) && CommaFree(kind) && |kind| == 1 && CommaFree(m)
    requires 1 <= |m| <= 2 && (|m| == 2 ==> m[0] == '!') && |head| + |m| + 3 > NAME_LIMIT
    ensures var parts := Split(Cut(head + "," + (kind + "," + m))); |parts| >= 3 ==> parts[2] == "" || parts[2] == "!"
  {
    var s := Cut(head + "," + (kind + "," + m));
    hide Split;
    if |head| + 3 <= NAME_LIMIT {
      var rest := m[..NAME_LIMIT - |head| - 3];
      assert s == head + "," + (kind + "," + rest);
      SplitAtComma(head, kind + "," + rest);
      SplitAtComma(kind, rest);
      SplitWhole(rest);
    } else if |head| < NAME_LIMIT {
      var rest := kind[..NAME_LIMIT - |head| - 1];
      assert s == head + "," + rest;
      SplitAtComma(head, rest);
      SplitWhole(rest);
    } else {
      assert s == head[..NAME_LIMIT];
      SplitWhole(s);
    }
  }

  lemma UnreadMode(raw: seq<Byte>)
    requires var parts := Split(OpenName(raw)); |parts| >= 3 ==> parts[2] == "" || parts[2] == "!"
    ensures FiltersOf(raw).mode == ""
  {
    assert NameText("") && Trimmed("") && NameText("!") && Trimmed("!");
    TokenStays("");
    TokenStays("!");
    assert ModeOf("").0 == "";
    assert ModeOf("!").0 == "" by { TrimIsExact(""); assert "!"[1..] == ""; }
    hide Split, OpenName, Trim, Token, ModeOf, KindOf, Unquoted;
  }

  lemma LettersAreText(kind: string, mode: string, negated: bool)
    requires kind in {"P", "S", "U", "L"} && mode in {"R", "W", "A"}
    ensures var m := (if negated then "!" else "") + mode;
            NameText(kind) && CommaFree(kind) && Trimmed(kind) && NameText(m) && CommaFree(m) && Trimmed(m)
  {
  }

  lemma FiltersFromParts(raw: seq<Byte>, head: string, kind: string, m: string)
    requires OpenName(raw) != "" && Split(OpenName(raw)) == [head, kind, m]
    requires var first := Unquoted(Trim(head)); first != "" && first[0] == '$'
    ensures FiltersOf(raw) == Filters(Token(Unquoted(Trim(head))[1..]), KindOf(Token(kind)),
                                      ModeOf(Token(m)).0, ModeOf(Token(m)).1)
  {
    hide Split, OpenName, Trim, Token, ModeOf, KindOf, Unquoted;
  }

  lemma NameParts(raw: seq<Byte>, pattern: string, kind: string, m: string)
    requires Spelled(raw) == DirectoryName(pattern, kind, m) && |raw| <= NAME_LIMIT
    requires NameText(pattern) && NameText(kind) && NameText(m) && CommaFree(pattern) && CommaFree(kind) && CommaFree(m)
    ensures OpenName(raw) == DirectoryName(pattern, kind, m) && OpenName(raw) != ""
    ensures Split(OpenName(raw)) == ["$" + pattern, kind, m]
  {
    var first, spec := "$" + pattern, DirectoryName(pattern, kind, m);
    DirectoryNameIsText(pattern, kind, m);
    assert OpenName(raw) == spec by {
      forall i | 0 <= i < |raw| ensures NameChar(Char(raw[i])) { assert Spelled(raw)[i] == Char(raw[i]); }
      OpenNameReads(raw, []);
      assert [] + Spelled(raw) == spec;
    }
    assert spec == first + "," + (kind + "," + m);
    SplitAtComma(first, kind + "," + m);
    SplitAtComma(kind, m);
    SplitWhole(m);
    hide Split, OpenName;
  }

  lemma FirstIsPattern(pattern: string)
    requires Trimmed(pattern)
    ensures var first := Unquoted(Trim("$" + pattern));
            first != "" && first[0] == '$' && first[1..] == pattern
  {
    TrimIsExact("$" + pattern);
    hide Trim;
  }

  lemma ModeReads(mode: string, negated: bool)
    requires mode == "R" || mode == "W" || mode == "A"
    ensures ModeOf((if negated then "!" else "") + mode) == (mode, negated)
  {
    TrimIsExact(mode);
    hide Trim;
    assert "" + mode == mode && ("!" + mode)[1..] == mode;
    assert mode[0] != '!';
  }

  lemma DirectoryNameIsText(pattern: string, kind: string, m: string)
    requires NameText(pattern) && NameText(kind) && NameText(m)
    ensures NameText(DirectoryName(pattern, kind, m))
  {
  }
}
