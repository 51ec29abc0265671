/**
 The text codecs of interfaces, loggers and triggers.  Escaping is a chain of string
 replacements; interfaces undo it with a one-pass scan, triggers with another chain.
 */
module Cfti {

  /** Replace every occurrence of a pattern, from left to right and without overlaps. */
  function Replace(s: string, pattern: string, sub: string): string
    requires pattern != ""
  {
    if |s| < |pattern| then s
    else if s[..|pattern|] == pattern then sub + Replace(s[|pattern|..], pattern, sub)
    else [s[0]] + Replace(s[1..], pattern, sub)
  }

  /** The escaping used on everything sent to interfaces and loggers. */
  function Escape(s: string): string {
    Replace(Replace(Replace(Replace(s, "\\", "\\\\"), "\t", "\\t"), "\n", "\\n"), "\r", "\\r")
  }

  // ---------- escaping is a map over characters ----------

  predicate Special(c: char) { c == '\\' || c == '\t' || c == '\n' || c == '\r' }

  function EscapeChar(c: char): string {
    if c == '\\' then "\\\\" else if c == '\t' then "\\t" else if c == '\n' then "\\n" else if c == '\r' then "\\r" else [c]
  }

  function EscapeMap(s: string): string {
    if s == "" then "" else EscapeChar(s[0]) + EscapeMap(s[1..])
  }

  lemma {:induction false} ReplaceCharConcat(a: string, b: string, c: char, sub: string)
    ensures Replace(a + b, [c], sub) == Replace(a, [c], sub) + Replace(b, [c], sub)
  {
    if a == "" {
      assert a + b == b;
    } else {
      assert (a + b)[1..] == a[1..] + b && (a + b)[..1] == a[..1];
      ReplaceCharConcat(a[1..], b, c, sub);
    }
  }

  lemma EscapeConcat(a: string, b: string)
    ensures Escape(a + b) == Escape(a) + Escape(b)
  {
    var a1, b1 := Replace(a, "\\", "\\\\"), Replace(b, "\\", "\\\\");
    var a2, b2 := Replace(a1, "\t", "\\t"), Replace(b1, "\t", "\\t");
    var a3, b3 := Replace(a2, "\n", "\\n"), Replace(b2, "\n", "\\n");
    ReplaceCharConcat(a, b, '\\', "\\\\");
    ReplaceCharConcat(a1, b1, '\t', "\\t");
    ReplaceCharConcat(a2, b2, '\n', "\\n");
    ReplaceCharConcat(a3, b3, '\r', "\\r");
  }

  lemma ReplaceOne(x: char, c: char, sub: string)
    ensures Replace([x], [c], sub) == if x == c then sub else [x]
  {
    assert [x][1..] == "" && Replace([x][1..], [c], sub) == "" && [x][..1] == [x];
  }

  lemma {:induction false} ReplaceTwo(x: char, y: char, c: char, sub: string)
    requires x != c && y != c
    ensures Replace([x, y], [c], sub) == [x, y]
  {
    assert [x, y] == [x] + [y];
    ReplaceCharConcat([x], [y], c, sub);
    ReplaceOne(x, c, sub);
    ReplaceOne(y, c, sub);
  }

  lemma EscapeOne(c: char)
    ensures Escape([c]) == EscapeChar(c)
  {
    ReplaceOne(c, '\\', "\\\\");
    if c == '\\' {
      ReplaceTwo('\\', '\\', '\t', "\\t");
      ReplaceTwo('\\', '\\', '\n', "\\n");
      ReplaceTwo('\\', '\\', '\r', "\\r");
    } else {
      ReplaceOne(c, '\t', "\\t");
      if c == '\t' {
        ReplaceTwo('\\', 't', '\n', "\\n");
        ReplaceTwo('\\', 't', '\r', "\\r");
      } else {
        ReplaceOne(c, '\n', "\\n");
        if c == '\n' {
          ReplaceTwo('\\', 'n', '\r', "\\r");
        } else {
          ReplaceOne(c, '\r', "\\r");
        }
      }
    }
  }

  /** The four replacements in a row are one pass over the characters. */
  lemma {:induction false} EscapeIsMap(s: string)
    ensures Escape(s) == EscapeMap(s)
  {
    if s != "" {
      assert s == [s[0]] + s[1..];
      EscapeConcat([s[0]], s[1..]);
      EscapeOne(s[0]);
      EscapeIsMap(s[1..]);
    }
  }

  /** Escaped text holds no tab, line feed or carriage return. */
  lemma {:induction false} EscapedIsOneField(s: string)
    ensures forall c :: c in Escape(s) ==> c != '\t' && c != '\n' && c != '\r'
  {
    EscapeIsMap(s);
    MapIsOneField(s);
  }

  lemma {:induction false} MapIsOneField(s: string)
    ensures forall c :: c in EscapeMap(s) ==> c != '\t' && c != '\n' && c != '\r'
  {
    if s != "" {
      MapIsOneField(s[1..]);
    }
  }

  // ---------- how interfaces undo it ----------

  /** The character a letter stands for after a backslash. */
  function Meaning(c: char): char {
    if c == 't' then '\t' else if c == 'n' then '\n' else if c == 'r' then '\r' else c
  }

  /** What the scan writes for one character, given whether the last one was an open backslash. */
  function Written(c: char, wasBackslash: bool): string {
    if c == '\\' then if wasBackslash then "\\" else ""
    else [if wasBackslash then Meaning(c) else c]
  }

  function Unescape(s: string, wasBackslash: bool): string {
    if s == "" then "" else Written(s[0], wasBackslash) + Unescape(s[1..], s[0] == '\\' && !wasBackslash)
  }

  lemma ScanStep(s: string, i: nat, wasBackslash: bool, out: string)
    requires i < |s|
    ensures (out + Written(s[i], wasBackslash)) + Unescape(s[i + 1..], s[i] == '\\' && !wasBackslash)
         == out + Unescape(s[i..], wasBackslash)
  {
    assert s[i..][1..] == s[i + 1..];
  }

  lemma ScanEnd(wasBackslash: bool)
    ensures Unescape("", wasBackslash) == ""
  {
  }

  method InterfaceUnescape(msg: string) returns (out: string)
    ensures out == Unescape(msg, false)
  {
    hide Unescape;
    out := "";
    var wasBackslash := false;
    assert msg[0..] == msg;
    for i := 0 to |msg|
      invariant out + Unescape(msg[i..], wasBackslash) == Unescape(msg, false)
    {
      var c := msg[i];
      ScanStep(msg, i, wasBackslash, out);
      if c == '\\' {
        if wasBackslash {
          out := out + "\\";
          wasBackslash := false;
        } else {
          wasBackslash := true;
        }
      } else if c == 't' {
        out := out + [if wasBackslash then '\t' else 't'];
        wasBackslash := false;
      } else if c == 'r' {
        out := out + [if wasBackslash then '\r' else 'r'];
        wasBackslash := false;
      } else if c == 'n' {
        out := out + [if wasBackslash then '\n' else 'n'];
        wasBackslash := false;
      } else {
        out := out + [c];
        wasBackslash := false;
      }
    }
    assert msg[|msg|..] == "";
    ScanEnd(wasBackslash);
  }

  lemma UnescapeEscapedChar(c: char, rest: string)
    ensures Unescape(EscapeChar(c) + rest, false) == [c] + Unescape(rest, false)
  {
    var s := EscapeChar(c) + rest;
    if Special(c) {
      assert s[1..] == [EscapeChar(c)[1]] + rest && s[1..][1..] == rest;
    } else {
      assert s[1..] == rest;
    }
  }

  /** An interface reads back exactly what was escaped, for every string. */
  lemma {:induction false} InterfaceRoundTrip(s: string)
    ensures Unescape(Escape(s), false) == s
  {
    EscapeIsMap(s);
    MapRoundTrip(s);
  }

  lemma {:induction false} MapRoundTrip(s: string)
    ensures Unescape(EscapeMap(s), false) == s
  {
    if s != "" {
      UnescapeEscapedChar(s[0], EscapeMap(s[1..]));
      MapRoundTrip(s[1..]);
    }
  }

  lemma {:induction false} PlainIsRead(plain: string, rest: string)
    requires '\\' !in plain
    ensures Unescape(plain + rest, false) == plain + Unescape(rest, false)
  {
    if plain == "" {
      assert plain + rest == rest;
    } else {
      PlainIsRead(plain[1..], rest);
      assert (plain + rest)[1..] == plain[1..] + rest;
    }
  }

  lemma EndIsRead()
    ensures Unescape("", false) == "" && Unescape(['\\'], false) == ""
  {
    assert ['\\'][1..] == "";
  }

  lemma PairIsRead(c: char, rest: string)
    ensures Unescape(['\\', c] + rest, false) ==
      [if c == 't' then '\t' else if c == 'n' then '\n' else if c == 'r' then '\r' else c] + Unescape(rest, false)
  {
    var s := ['\\', c] + rest;
    assert s[1..] == [c] + rest && s[1..][1..] == rest;
  }

  /**
   What an interface makes of any text, escaped or not: text without a backslash stays as it is, a
   backslash and the character after it become one character, and a backslash at the very end is lost.
   */
  lemma InterfaceReads(plain: string, c: char, rest: string)
    requires '\\' !in plain
    ensures Unescape(plain, false) == plain && Unescape(plain + ['\\'], false) == plain
    ensures Unescape(plain + ['\\', c] + rest, false) ==
      plain + [if c == 't' then '\t' else if c == 'n' then '\n' else if c == 'r' then '\r' else c] + Unescape(rest, false)
  {
    hide Unescape, Meaning;
    var pair := ['\\', c] + rest;
    EndIsRead();
    PlainIsRead(plain, "");
    PlainIsRead(plain, ['\\']);
    PlainIsRead(plain, pair);
    PairIsRead(c, rest);
    assert plain + "" == plain;
    assert plain + ['\\', c] + rest == plain + pair;
  }

  // ---------- how triggers undo it ----------

  function TriggerUnescape(s: string): string {
    Replace(Replace(Replace(Replace(s, "\\t", "\t"), "\\n", "\n"), "\\r", "\r"), "\\\\", "\\")
  }

  /** The letters t, n and r in the order in which they are replaced. */
  function Letter(d: nat): char
    requires d < 3
  {
    if d == 0 then 't' else if d == 1 then 'n' else 'r'
  }

  predicate Done(c: char, d: nat) {
    (c == 't' && d > 0) || (c == 'n' && d > 1) || (c == 'r' && d > 2)
  }

  predicate DoneControl(c: char, d: nat) {
    (c == '\t' && d > 0) || (c == '\n' && d > 1) || (c == '\r' && d > 2)
  }

  /** The escaped text after the first d letters have been replaced. */
  function Stage(s: string, d: nat): string {
    if s == "" then ""
    else if s[0] == '\\' then
      if |s| > 1 && Done(s[1], d) then ['\\', Meaning(s[1])] + Stage(s[2..], d)
      else "\\\\" + Stage(s[1..], d)
    else if DoneControl(s[0], d) then [s[0]] + Stage(s[1..], d)
    else EscapeChar(s[0]) + Stage(s[1..], d)
  }

  lemma {:induction false} StageZero(s: string)
    ensures Stage(s, 0) == EscapeMap(s)
  {
    if s != "" {
      StageZero(s[1..]);
    }
  }

  lemma ReplaceSkip(x: char, rest: string, pattern: string, sub: string)
    requires |pattern| == 2 && (x != pattern[0] || rest == "" || rest[0] != pattern[1])
    ensures Replace([x] + rest, pattern, sub) == [x] + Replace(rest, pattern, sub)
  {
    var s := [x] + rest;
    assert s[1..] == rest;
    if rest != "" {
      assert s[..2] == [x, rest[0]];
    }
  }

  lemma ReplaceHit(rest: string, pattern: string, sub: string)
    requires |pattern| == 2
    ensures Replace(pattern + rest, pattern, sub) == sub + Replace(rest, pattern, sub)
  {
    assert (pattern + rest)[..2] == pattern && (pattern + rest)[2..] == rest;
  }

  lemma PairKept(x: char, rest: string, pattern: string, sub: string)
    requires |pattern| == 2 && pattern[0] == '\\' && x != '\\' && x != pattern[1]
    ensures Replace(['\\', x] + rest, pattern, sub) == ['\\', x] + Replace(rest, pattern, sub)
  {
    assert ['\\', x] + rest == ['\\'] + ([x] + rest);
    ReplaceSkip(x, rest, pattern, sub);
    ReplaceSkip('\\', [x] + rest, pattern, sub);
  }

  lemma DoubleKept(rest: string, pattern: string, sub: string)
    requires |pattern| == 2 && pattern[0] == '\\' && pattern[1] != '\\' && (rest == "" || rest[0] != pattern[1])
    ensures Replace("\\\\" + rest, pattern, sub) == "\\\\" + Replace(rest, pattern, sub)
  {
    assert "\\\\" + rest == ['\\'] + (['\\'] + rest);
    ReplaceSkip('\\', rest, pattern, sub);
    ReplaceSkip('\\', ['\\'] + rest, pattern, sub);
  }

  lemma DoubleHit(rest: string, pattern: string, sub: char)
    requires |pattern| == 2 && pattern[0] == '\\' && pattern[1] != '\\'
    ensures Replace("\\\\" + ([pattern[1]] + rest), pattern, [sub]) == ['\\', sub] + Replace(rest, pattern, [sub])
  {
    assert "\\\\" + ([pattern[1]] + rest) == ['\\'] + (pattern + rest);
    ReplaceHit(rest, pattern, [sub]);
    ReplaceSkip('\\', pattern + rest, pattern, [sub]);
  }

  predicate Advances(s: string, d: nat)
    requires d < 3
  {
    Replace(Stage(s, d), ['\\', Letter(d)], [Meaning(Letter(d))]) == Stage(s, d + 1)
  }

  lemma StageHead(s: string, d: nat)
    requires d < 3
    ensures s == "" <==> Stage(s, d) == ""
    ensures s != "" && s[0] != Letter(d) ==> Stage(s, d)[0] != Letter(d)
    ensures s != "" && s[0] == Letter(d) ==> Stage(s, d) == [Letter(d)] + Stage(s[1..], d)
  {
  }

  lemma BackslashStage(s: string, d: nat)
    requires d < 3 && s != "" && s[0] == '\\' && Advances(s[1..], d) && (|s| > 1 ==> Advances(s[2..], d))
    ensures Advances(s, d)
  {
    hide Replace;
    var pattern, sub := ['\\', Letter(d)], Meaning(Letter(d));
    StageHead(s[1..], d);
    if |s| == 1 {
      DoubleKept("", pattern, [sub]);
    } else if Done(s[1], d) {
      PairKept(Meaning(s[1]), Stage(s[2..], d), pattern, [sub]);
    } else if s[1] == Letter(d) {
      assert s[1..][1..] == s[2..];
      DoubleHit(Stage(s[2..], d), pattern, sub);
    } else {
      DoubleKept(Stage(s[1..], d), pattern, [sub]);
    }
  }

  lemma OtherStage(s: string, d: nat)
    requires d < 3 && s != "" && s[0] != '\\' && Advances(s[1..], d)
    ensures Advances(s, d)
  {
    hide Replace;
    var pattern, sub := ['\\', Letter(d)], [Meaning(Letter(d))];
    var rest := Stage(s[1..], d);
    if DoneControl(s[0], d) || !Special(s[0]) {
      ReplaceSkip(s[0], rest, pattern, sub);
    } else if EscapeChar(s[0]) == pattern {
      ReplaceHit(rest, pattern, sub);
    } else {
      PairKept(EscapeChar(s[0])[1], rest, pattern, sub);
    }
  }

  /** Replacing the next letter takes one stage to the next. */
  lemma {:induction false} NextStage(s: string, d: nat)
    requires d < 3
    ensures Advances(s, d)
  {
    if s != "" {
      NextStage(s[1..], d);
      if s[0] == '\\' {
        if |s| > 1 {
          NextStage(s[2..], d);
        }
        BackslashStage(s, d);
      } else {
        OtherStage(s, d);
      }
    }
  }

  /** What a trigger makes of s: every t, n or r right after a backslash turns into a control character. */
  function Misread(s: string): string {
    if s == "" then ""
    else if s[0] == '\\' && |s| > 1 && Done(s[1], 3) then ['\\', Meaning(s[1])] + Misread(s[2..])
    else [s[0]] + Misread(s[1..])
  }

  predicate Completes(s: string) { Replace(Stage(s, 3), "\\\\", "\\") == Misread(s) }

  lemma BackslashCompletes(s: string)
    requires s != "" && s[0] == '\\' && Completes(s[1..]) && (|s| > 1 ==> Completes(s[2..]))
    ensures Completes(s)
  {
    hide Replace;
    if |s| > 1 && Done(s[1], 3) {
      var x, tail := Meaning(s[1]), Stage(s[2..], 3);
      assert Stage(s, 3) == ['\\'] + ([x] + tail);
      ReplaceSkip(x, tail, "\\\\", "\\");
      ReplaceSkip('\\', [x] + tail, "\\\\", "\\");
    } else {
      ReplaceHit(Stage(s[1..], 3), "\\\\", "\\");
    }
  }

  lemma OtherCompletes(s: string)
    requires s != "" && s[0] != '\\' && Completes(s[1..])
    ensures Completes(s)
  {
    hide Replace;
    assert Stage(s, 3) == [s[0]] + Stage(s[1..], 3);
    ReplaceSkip(s[0], Stage(s[1..], 3), "\\\\", "\\");
  }

  lemma {:induction false} LastStage(s: string)
    ensures Completes(s)
  {
    if s != "" {
      LastStage(s[1..]);
      if s[0] == '\\' {
        if |s| > 1 {
          LastStage(s[2..]);
        }
        BackslashCompletes(s);
      } else {
        OtherCompletes(s);
      }
    }
  }

  /** Exactly what the trigger's chain of replacements does to escaped text. */
  lemma TriggerReads(s: string)
    ensures TriggerUnescape(Escape(s)) == Misread(s)
  {
    EscapeIsMap(s);
    StageZero(s);
    NextStage(s, 0);
    NextStage(s, 1);
    NextStage(s, 2);
    LastStage(s);
  }

  predicate Ambiguous(s: string, i: int) {
    0 <= i < |s| - 1 && s[i] == '\\' && (s[i + 1] == 't' || s[i + 1] == 'n' || s[i + 1] == 'r')
  }

  lemma {:induction false} MisreadExactly(s: string)
    ensures |Misread(s)| == |s|
    ensures Misread(s) == s <==> forall i :: !Ambiguous(s, i)
  {
    if s != "" {
      if Ambiguous(s, 0) {
        MisreadExactly(s[2..]);
        assert Misread(s)[1] != s[1];
      } else {
        MisreadExactly(s[1..]);
        assert forall i :: 0 <= i ==> (Ambiguous(s[1..], i) <==> Ambiguous(s, i + 1));
        if exists i :: Ambiguous(s, i) {
          var i :| Ambiguous(s, i);
          assert Ambiguous(s[1..], i - 1);
        }
        if Misread(s) == s {
          assert Misread(s)[1..] == Misread(s[1..]);
        }
      }
    }
  }

  /** A trigger reads back what was escaped exactly if no backslash stands right before t, n or r. */
  lemma TriggerRoundTripExactly(s: string)
    ensures TriggerUnescape(Escape(s)) == s <==> forall i :: !Ambiguous(s, i)
  {
    TriggerReads(s);
    MisreadExactly(s);
  }

  /** A backslash and an n come back as a backslash and a line feed. */
  lemma TriggerMisreads()
    ensures TriggerUnescape(Escape("\\n")) == ['\\', '\n'] != "\\n"
  {
    var s := "\\n";
    TriggerReads(s);
    assert s[2..] == "" && Misread(s) == ['\\', '\n'] + Misread(s[2..]);
  }
}
