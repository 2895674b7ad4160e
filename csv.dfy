/** The CSV field codec shared by the question and response files and the action log:
    a field holding a comma, a double quote or a line feed is wrapped in double quotes
    with every inner quote doubled (the quoting rule of section 2 of RFC 4180), and a
    line is split back into fields by one left-to-right scan. */
module Csv {
  import opened Wrappers
  import opened Strings

  /** The characters that make a field need quoting. A carriage return on its own
      does not. */
  predicate NeedsQuoting(t: string) {
    ',' in t || '"' in t || '\n' in t
  }

  /** Every double quote written twice. */
  function DoubleQuotes(t: string): string {
    ReplaceAll(t, "\"", "\"\"")
  }

  /** The escaping rule applied to a non-null string. */
  function Quote(t: string): (r: string)
    ensures !NeedsQuoting(t) ==> r == t
    ensures NeedsQuoting(t) ==> |r| >= 2 && r[0] == '"' && r[|r| - 1] == '"'
  {
    if NeedsQuoting(t) then "\"" + DoubleQuotes(t) + "\"" else t
  }

  /** `escapeCSV` of the file utilities, which writes a null field as an empty one. */
  function Escape(text: Option<string>): (r: string)
    ensures text == None ==> r == ""
    ensures text != None ==> r == Quote(text.value)
  {
    match text
    case None => ""
    case Some(t) => Quote(t)
  }

  /** `Quote` applied to every field. */
  function QuoteAll(fs: seq<string>): seq<string> {
    seq(|fs|, i requires 0 <= i < |fs| => Quote(fs[i]))
  }

  /** The fields separated by commas, in order: the row the writers build by appending
      `","` and a field at a time. */
  function JoinComma(fs: seq<string>): string
    requires |fs| >= 1
  {
    if |fs| == 1 then fs[0] else fs[0] + "," + JoinComma(fs[1..])
  }

  // ---- parsing -----------------------------------------------------------------

  /** The scan `parseCSVLine` performs, as a function of the unread rest of the line,
      the quote flag, the field being built and the fields already finished. Outside
      quotes a comma ends a field; a double quote toggles the flag, except that inside
      quotes two double quotes in a row stand for one. At the end the last field is
      added, so there is always at least one more field than was finished. */
  function Scan(rest: string, inQuotes: bool, current: string, done: seq<string>): (r: seq<string>)
    ensures |r| > |done|
    decreases |rest|
  {
    if rest == [] then done + [current]
    else if rest[0] == '"' then
      if inQuotes && |rest| > 1 && rest[1] == '"' then Scan(rest[2..], inQuotes, current + ['"'], done)
      else Scan(rest[1..], !inQuotes, current, done)
    else if rest[0] == ',' && !inQuotes then Scan(rest[1..], false, "", done + [current])
    else Scan(rest[1..], inQuotes, current + [rest[0]], done)
  }

  /** The fields of a whole line: never fewer than one. */
  function ParseLine(line: string): (fields: seq<string>)
    ensures |fields| >= 1
  {
    Scan(line, false, "", [])
  }

  /** `parseCSVLine`: one pass with a quote flag and a field buffer, looking one
      character ahead for a doubled quote. */
  method ParseCsvLine(line: string) returns (fields: seq<string>)
    ensures fields == ParseLine(line)
  {
    var result: seq<string> := [];
    var current := "";
    var inQuotes := false;
    var i := 0;
    while i < |line|
      invariant 0 <= i <= |line|
      invariant Scan(line[i..], inQuotes, current, result) == ParseLine(line)
      decreases |line| - i
    {
      ghost var rest := line[i..];
      assert rest[1..] == line[i + 1..];
      var c := line[i];
      if c == '"' {
        if inQuotes && i + 1 < |line| && line[i + 1] == '"' {
          assert rest[2..] == line[i + 2..];
          current := current + ['"'];
          i := i + 1;
        } else {
          inQuotes := !inQuotes;
        }
      } else if c == ',' && !inQuotes {
        result := result + [current];
        current := "";
      } else {
        current := current + [c];
      }
      i := i + 1;
    }
    fields := result + [current];
  }

  // ---- the number of fields ----------------------------------------------------

  /** The commas of `s` that stand outside quotes, where a position is inside quotes
      exactly when an odd number of double quotes precede it (counting from a start
      state `inQuotes`). */
  function UnquotedCommas(s: string, inQuotes: bool): nat
    decreases |s|
  {
    if s == [] then 0
    else
      (if s[0] == ',' && !inQuotes then 1 else 0)
      + UnquotedCommas(s[1..], if s[0] == '"' then !inQuotes else inQuotes)
  }

  lemma {:induction false} ScanCount(rest: string, inQuotes: bool, current: string, done: seq<string>)
    ensures |Scan(rest, inQuotes, current, done)| == |done| + 1 + UnquotedCommas(rest, inQuotes)
    decreases |rest|
  {
    if rest != [] {
      if rest[0] == '"' && inQuotes && |rest| > 1 && rest[1] == '"' {
        assert rest[1..][1..] == rest[2..];
        ScanCount(rest[2..], inQuotes, current + ['"'], done);
      } else if rest[0] == '"' {
        ScanCount(rest[1..], !inQuotes, current, done);
      } else if rest[0] == ',' && !inQuotes {
        ScanCount(rest[1..], false, "", done + [current]);
      } else {
        ScanCount(rest[1..], inQuotes, current + [rest[0]], done);
      }
    }
  }

  /** A line has one field more than it has commas outside quotes. */
  lemma FieldCount(line: string)
    ensures |ParseLine(line)| == UnquotedCommas(line, false) + 1
  {
    ScanCount(line, false, "", []);
  }

  // ---- lines without quotes ------------------------------------------------------

  lemma {:induction false} JoinCommaSnoc(xs: seq<string>, a: string)
    requires |xs| >= 1
    ensures JoinComma(xs + [a]) == JoinComma(xs) + "," + a
    decreases |xs|
  {
    if |xs| == 1 {
      assert (xs + [a])[1..] == [a];
    } else {
      assert (xs + [a])[1..] == xs[1..] + [a];
      JoinCommaSnoc(xs[1..], a);
    }
  }

  lemma {:induction false} JoinCommaExtendLast(xs: seq<string>, a: string, b: string)
    ensures JoinComma(xs + [a + b]) == JoinComma(xs + [a]) + b
    decreases |xs|
  {
    if xs != [] {
      assert (xs + [a + b])[1..] == xs[1..] + [a + b];
      assert (xs + [a])[1..] == xs[1..] + [a];
      JoinCommaExtendLast(xs[1..], a, b);
    }
  }

  lemma {:induction false} ScanNoQuotes(rest: string, current: string, done: seq<string>)
    requires '"' !in rest
    requires ',' !in current && forall k | 0 <= k < |done| :: ',' !in done[k]
    ensures JoinComma(Scan(rest, false, current, done)) == JoinComma(done + [current]) + rest
    ensures forall k | 0 <= k < |Scan(rest, false, current, done)| :: ',' !in Scan(rest, false, current, done)[k]
    decreases |rest|
  {
    if rest != [] {
      assert rest[0] in rest;
      if rest[0] == ',' {
        assert rest[0] in rest;
        ScanNoQuotes(rest[1..], "", done + [current]);
        JoinCommaSnoc(done + [current], "");
      } else {
        assert rest[1..] == rest[1..] && forall k | 1 <= k < |rest| :: rest[k] == rest[1..][k - 1];
        ScanNoQuotes(rest[1..], current + [rest[0]], done);
        JoinCommaExtendLast(done, current, [rest[0]]);
      }
    }
  }

  /** On a line without double quotes, parsing splits at every comma: joining the
      fields with commas gives the line back, and no field holds a comma. */
  lemma PlainSplit(line: string)
    requires '"' !in line
    ensures JoinComma(ParseLine(line)) == line
    ensures forall k | 0 <= k < |ParseLine(line)| :: ',' !in ParseLine(line)[k]
  {
    ScanNoQuotes(line, "", []);
  }

  // ---- escaped fields read back ----------------------------------------------------

  lemma {:induction false} ScanPlain(t: string, rest: string, current: string, done: seq<string>)
    requires ',' !in t && '"' !in t
    ensures Scan(t + rest, false, current, done) == Scan(rest, false, current + t, done)
    decreases |t|
  {
    if t != [] {
      assert t[0] in t;
      assert (t + rest)[1..] == t[1..] + rest;
      assert forall k | 1 <= k < |t| :: t[k] == t[1..][k - 1];
      ScanPlain(t[1..], rest, current + [t[0]], done);
      assert current + [t[0]] + t[1..] == current + t;
    } else {
      assert t + rest == rest && current + t == current;
    }
  }

  lemma {:induction false} ScanQuoted(t: string, rest: string, current: string, done: seq<string>)
    requires rest == [] || rest[0] != '"'
    ensures Scan(DoubleQuotes(t) + "\"" + rest, true, current, done) == Scan(rest, false, current + t, done)
    decreases |t|
  {
    if t == [] {
      assert DoubleQuotes(t) + "\"" + rest == "\"" + rest;
      assert ("\"" + rest)[1..] == rest;
      assert current + t == current;
    } else {
      assert t[..1] == [t[0]];
      if t[0] == '"' {
        assert DoubleQuotes(t) == "\"\"" + DoubleQuotes(t[1..]);
        var s := DoubleQuotes(t) + "\"" + rest;
        assert s[2..] == DoubleQuotes(t[1..]) + "\"" + rest;
        ScanQuoted(t[1..], rest, current + ['"'], done);
        assert current + ['"'] + t[1..] == current + t;
      } else {
        assert DoubleQuotes(t) == [t[0]] + DoubleQuotes(t[1..]);
        var s := DoubleQuotes(t) + "\"" + rest;
        assert s[1..] == DoubleQuotes(t[1..]) + "\"" + rest;
        ScanQuoted(t[1..], rest, current + [t[0]], done);
        assert current + [t[0]] + t[1..] == current + t;
      }
    }
  }

  /** An escaped field followed by a comma or the end of the line reads back as the
      original field. */
  lemma ScanEscaped(t: string, rest: string, done: seq<string>)
    requires rest == [] || rest[0] == ','
    ensures Scan(Quote(t) + rest, false, "", done) == Scan(rest, false, t, done)
  {
    if NeedsQuoting(t) {
      var s := "\"" + DoubleQuotes(t) + "\"" + rest;
      assert s[1..] == DoubleQuotes(t) + "\"" + rest;
      assert Quote(t) + rest == s && s[0] == '"';
      ScanQuoted(t, rest, "", done);
      assert "" + t == t;
    } else {
      ScanPlain(t, rest, "", done);
      assert Quote(t) == t && "" + t == t;
    }
  }

  lemma {:induction false} ScanJoin(fs: seq<string>, done: seq<string>)
    requires |fs| >= 1
    ensures Scan(JoinComma(QuoteAll(fs)), false, "", done) == done + fs
    decreases |fs|
  {
    var es := QuoteAll(fs);
    if |fs| == 1 {
      ScanEscaped(fs[0], "", done);
      assert JoinComma(es) == Quote(fs[0]) + "";
      assert done + fs == done + [fs[0]];
    } else {
      assert es[1..] == QuoteAll(fs[1..]);
      var tail := JoinComma(QuoteAll(fs[1..]));
      assert JoinComma(es) == Quote(fs[0]) + ("," + tail);
      ScanEscaped(fs[0], "," + tail, done);
      assert ("," + tail)[1..] == tail;
      ScanJoin(fs[1..], done + [fs[0]]);
      assert done + [fs[0]] + fs[1..] == done + fs;
    }
  }

  /** Parsing the comma-join of escaped fields gives back exactly those fields, for
      any non-empty list of strings, including strings with commas, quotes and line
      breaks. */
  lemma RoundTrip(fs: seq<string>)
    requires |fs| >= 1
    ensures ParseLine(JoinComma(QuoteAll(fs))) == fs
  {
    ScanJoin(fs, []);
  }
}
