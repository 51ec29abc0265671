/** The tab-separated log lines written to loggers, and the proof that a reader can take them apart again. */
module Tsv {
  import opened Units
  import opened Cfti

  datatype LogType = Error | Info

  datatype LogEntry = LogEntry(unit: UnitName, logType: LogType, message: string, secs: nat, nsecs: nat)

  function TypeName(t: LogType): string { if t.Error? then "error" else "info" }

  function KindName(k: UnitKind): string {
    match k
    case Interface => "interface"
    case Jig => "jig"
    case Logger => "logger"
    case Scenario => "scenario"
    case Test => "test"
    case Trigger => "trigger"
    case Internal => "internal"
  }

  /** A natural number in decimal notation. */
  function Decimal(n: nat): string {
    if n < 10 then [('0' as int + n) as char] else Decimal(n / 10) + [('0' as int + n % 10) as char]
  }

  function TsvFields(l: LogEntry): string {
    TypeName(l.logType) + "\t" + Escape(l.unit.id) + "\t" + Escape(KindName(l.unit.kind)) + "\t"
    + Decimal(l.secs) + "\t" + Decimal(l.nsecs) + "\t" + Escape(l.message)
  }

  function TsvLine(l: LogEntry): string { TsvFields(l) + "\n" }

  // ---------- taking a line apart ----------

  /** The pieces of s between separators. */
  function Split(s: string, sep: char): (fields: seq<string>)
    ensures fields != []
  {
    if s == "" then [""]
    else if s[0] == sep then [""] + Split(s[1..], sep)
    else var rest := Split(s[1..], sep); [[s[0]] + rest[0]] + rest[1..]
  }

  function Number(s: string): int {
    if s == "" then 0 else 10 * Number(s[..|s| - 1]) + (s[|s| - 1] as int - '0' as int)
  }

  function ReadType(s: string): Option<LogType> {
    if s == "error" then Some(Error) else if s == "info" then Some(Info) else None
  }

  function ReadKind(s: string): Option<UnitKind> {
    if s == "interface" then Some(Interface) else if s == "jig" then Some(Jig)
    else if s == "logger" then Some(Logger) else if s == "scenario" then Some(Scenario)
    else if s == "test" then Some(Test) else if s == "trigger" then Some(Trigger)
    else if s == "internal" then Some(Internal) else None
  }

  /** Reads the entry back from a line: six fields, the three texts unescaped as interfaces do it. */
  function ReadLine(line: string): Option<LogEntry> {
    if line == "" || line[|line| - 1] != '\n' then None
    else
      var f := Split(line[..|line| - 1], '\t');
      if |f| != 6 then None
      else
        var logType, kind := ReadType(f[0]), ReadKind(Unescape(f[2], false));
        var secs, nsecs := Number(f[3]), Number(f[4]);
        if logType.None? || kind.None? || secs < 0 || nsecs < 0 then None
        else Some(LogEntry(UnitName(Unescape(f[1], false), kind.value), logType.value, Unescape(f[5], false), secs, nsecs))
  }

  // ---------- proofs ----------

  lemma {:induction false} SplitField(field: string, sep: char, rest: string)
    requires sep !in field
    ensures Split(field, sep) == [field]
    ensures Split(field + [sep] + rest, sep) == [field] + Split(rest, sep)
  {
    var s := field + [sep] + rest;
    if field == "" {
      assert s[1..] == rest;
    } else {
      assert s[1..] == field[1..] + [sep] + rest;
      SplitField(field[1..], sep, rest);
      assert [field[0]] + field[1..] == field;
    }
  }

  /** Decimal notation uses digits only and determines the number. */
  lemma {:induction false} DecimalRoundTrip(n: nat)
    ensures Number(Decimal(n)) == n
    ensures Decimal(n) != "" && forall c :: c in Decimal(n) ==> '0' <= c <= '9'
  {
    var s := Decimal(n);
    if n < 10 {
      assert s[..0] == "";
    } else {
      DecimalRoundTrip(n / 10);
      assert s[..|s| - 1] == Decimal(n / 10);
    }
  }

  lemma KindRoundTrip(k: UnitKind)
    ensures ReadKind(KindName(k)) == Some(k)
  {
  }

  lemma SixFields(a: string, b: string, c: string, d: string, e: string, f: string)
    requires '\t' !in a && '\t' !in b && '\t' !in c && '\t' !in d && '\t' !in e && '\t' !in f
    ensures Split(a + "\t" + b + "\t" + c + "\t" + d + "\t" + e + "\t" + f, '\t') == [a, b, c, d, e, f]
  {
    hide Split;
    var fe := e + "\t" + f;
    var fd := d + "\t" + fe;
    var fc := c + "\t" + fd;
    var fb := b + "\t" + fc;
    SplitField(f, '\t', "");
    SplitField(e, '\t', f);
    SplitField(d, '\t', fe);
    SplitField(c, '\t', fd);
    SplitField(b, '\t', fc);
    SplitField(a, '\t', fb);
    assert a + "\t" + b + "\t" + c + "\t" + d + "\t" + e + "\t" + f == a + "\t" + fb;
    assert [a] + ([b] + ([c] + ([d] + ([e] + [f])))) == [a, b, c, d, e, f];
  }

  /** The columns of a line: type, unit, kind of unit, seconds, nanoseconds and message. */
  lemma LineColumns(l: LogEntry)
    ensures Split(TsvFields(l), '\t') ==
      [if l.logType.Error? then "error" else "info", Escape(l.unit.id), KindName(l.unit.kind), Decimal(l.secs), Decimal(l.nsecs), Escape(l.message)]
  {
    hide Split, Escape, Decimal, KindName;
    var kind := KindName(l.unit.kind);
    EscapedIsOneField(l.unit.id);
    EscapedIsOneField(kind);
    EscapedIsOneField(l.message);
    DecimalRoundTrip(l.secs);
    DecimalRoundTrip(l.nsecs);
    KindIsPlain(l.unit.kind);
    SixFields(TypeName(l.logType), Escape(l.unit.id), Escape(kind), Decimal(l.secs), Decimal(l.nsecs), Escape(l.message));
  }

  lemma KindIsPlain(k: UnitKind)
    ensures Escape(KindName(k)) == KindName(k)
  {
    EscapeIsMap(KindName(k));
    PlainStays(KindName(k));
  }

  lemma {:induction false} PlainStays(s: string)
    requires forall c :: c in s ==> !Special(c)
    ensures EscapeMap(s) == s
  {
    if s != "" {
      assert s[0] in s;
      PlainStays(s[1..]);
    }
  }

  /** Every line decodes to the entry it was made from. */
  lemma LineRoundTrip(l: LogEntry)
    ensures ReadLine(TsvLine(l)) == Some(l)
  {
    hide Split, Escape, Unescape, Decimal, Number, KindName, ReadKind;
    var kind := KindName(l.unit.kind);
    var a, b, c := TypeName(l.logType), Escape(l.unit.id), Escape(kind);
    var d, e, f := Decimal(l.secs), Decimal(l.nsecs), Escape(l.message);
    EscapedIsOneField(l.unit.id);
    EscapedIsOneField(kind);
    EscapedIsOneField(l.message);
    DecimalRoundTrip(l.secs);
    DecimalRoundTrip(l.nsecs);
    SixFields(a, b, c, d, e, f);
    InterfaceRoundTrip(l.unit.id);
    InterfaceRoundTrip(kind);
    InterfaceRoundTrip(l.message);
    KindRoundTrip(l.unit.kind);
    var line := TsvLine(l);
    assert line[..|line| - 1] == TsvFields(l) == a + "\t" + b + "\t" + c + "\t" + d + "\t" + e + "\t" + f;
  }

  /** Two entries with the same line are the same entry, and no line holds a newline before its end. */
  lemma LinesAreUnambiguous(l: LogEntry, m: LogEntry)
    ensures TsvLine(l) == TsvLine(m) ==> l == m
    ensures '\n' !in TsvFields(l)
  {
    hide Escape, Decimal, KindName, ReadLine;
    LineRoundTrip(l);
    LineRoundTrip(m);
    EscapedIsOneField(l.unit.id);
    EscapedIsOneField(KindName(l.unit.kind));
    EscapedIsOneField(l.message);
    DecimalRoundTrip(l.secs);
    DecimalRoundTrip(l.nsecs);
  }
}
