/**
 * ATParser: payload extraction and quote-aware field splitting for AT
 * notification lines. Each operation has a specification function and a
 * method that performs the character scan the way the component does.
 */
module ATParser {
  import opened Base
  import opened CLib

  /** Length of the run of white space that ends the string. */
  function TrailingSpaceRun(s: string): (n: nat)
    ensures n <= |s|
    ensures forall k :: |s| - n <= k < |s| ==> IsSpace(s[k])
    ensures n == |s| || !IsSpace(s[|s| - 1 - n])
  {
    if s != [] && IsSpace(s[|s| - 1]) then 1 + TrailingSpaceRun(s[..|s| - 1]) else 0
  }

  /** What is left once trailing white space is dropped. */
  function TrimRight(s: string): (r: string)
    ensures r == [] || !IsSpace(r[|r| - 1])
  {
    s[..|s| - TrailingSpaceRun(s)]
  }

  /** The string without its leading and trailing white space. */
  function Trim(s: string): (r: string)
    ensures Trimmed(r)
  {
    TrimRight(SkipSpace(s))
  }

  /** Neither end of the string is white space. */
  predicate Trimmed(s: string)
  {
    s == [] || (!IsSpace(s[0]) && !IsSpace(s[|s| - 1]))
  }

  lemma TrimOfTrimmed(s: string)
    requires Trimmed(s)
    ensures Trim(s) == s
  {
  }

  /** Trimming twice is trimming once. */
  lemma TrimIdempotent(s: string)
    ensures Trim(Trim(s)) == Trim(s)
  {
    TrimOfTrimmed(Trim(s));
  }

  /** A run of white space that stops at position n has length n. */
  lemma SpaceRunExact(s: string, n: nat)
    requires n <= |s|
    requires forall k :: 0 <= k < n ==> IsSpace(s[k])
    requires n == |s| || !IsSpace(s[n])
    ensures SpaceRun(s) == n
  {
  }

  /** A trailing run of white space that stops before position |s| - n has length n. */
  lemma TrailingSpaceRunExact(s: string, n: nat)
    requires n <= |s|
    requires forall k :: |s| - n <= k < |s| ==> IsSpace(s[k])
    requires n == |s| || !IsSpace(s[|s| - 1 - n])
    ensures TrailingSpaceRun(s) == n
  {
  }

  /** Trim(s) is the slice between the two positions the trim loops stop at. */
  lemma TrimBetween(s: string, start: nat, end: nat)
    requires start <= end <= |s|
    requires SpaceRun(s) == start
    requires forall k :: end <= k < |s| ==> IsSpace(s[k])
    requires end == start || !IsSpace(s[end - 1])
    ensures Trim(s) == s[start..end]
  {
    SuffixTrailingRun(s, start, end);
    TrimByRuns(s, start, end);
  }

  /** Trim(s) in terms of the lengths of its two white-space runs. */
  lemma TrimByRuns(s: string, start: nat, end: nat)
    requires start <= end <= |s|
    requires SpaceRun(s) == start
    requires TrailingSpaceRun(s[start..]) == |s| - end
    ensures Trim(s) == s[start..end]
  {
    var t := s[start..];
    assert SkipSpace(s) == t;
    assert TrimRight(t) == t[..end - start];
    SliceOfSuffix(s, start, end);
  }

  /** The trailing white-space run of a suffix is the one that starts at end. */
  lemma SuffixTrailingRun(s: string, start: nat, end: nat)
    requires start <= end <= |s|
    requires forall k :: end <= k < |s| ==> IsSpace(s[k])
    requires end == start || !IsSpace(s[end - 1])
    ensures TrailingSpaceRun(s[start..]) == |s| - end
  {
    var t := s[start..];
    var n := |s| - end;
    forall k | |t| - n <= k < |t|
      ensures IsSpace(t[k])
    {
      assert t[k] == s[start + k];
    }
    if n < |t| {
      assert t[|t| - 1 - n] == s[end - 1];
    }
    TrailingSpaceRunExact(t, n);
  }

  lemma SliceOfSuffix(s: string, start: nat, end: nat)
    requires start <= end <= |s|
    ensures s[start..][..end - start] == s[start..end]
  {
  }

  /**
   * The trim loops shared by extract_payload and split_args: advance start
   * over leading white space, then retreat end over trailing white space.
   */
  method TrimWhitespace(s: string) returns (r: string)
    ensures r == Trim(s)
  {
    var start, end := 0, |s|;
    while start < end && IsSpace(s[start])
      invariant 0 <= start <= end == |s|
      invariant forall k :: 0 <= k < start ==> IsSpace(s[k])
    {
      start := start + 1;
    }
    SpaceRunExact(s, start);
    while end > start && IsSpace(s[end - 1])
      invariant start <= end <= |s|
      invariant forall k :: end <= k < |s| ==> IsSpace(s[k])
    {
      end := end - 1;
    }
    TrimBetween(s, start, end);
    r := s[start..end];
  }

  /** The prefix occurs in the line starting at position i. */
  predicate OccursAt(line: string, prefix: string, i: nat)
  {
    i + |prefix| <= |line| && forall k :: 0 <= k < |prefix| ==> line[i + k] == prefix[k]
  }

  function FindFrom(line: string, prefix: string, from: nat): (r: Option<nat>)
    requires from <= |line|
    ensures r.Some? ==> from <= r.value && r.value + |prefix| <= |line|
    decreases |line| - from
  {
    if OccursAt(line, prefix, from) then Some(from)
    else if from == |line| then None
    else FindFrom(line, prefix, from + 1)
  }

  lemma {:induction false} FindFromFirst(line: string, prefix: string, from: nat)
    requires from <= |line|
    ensures FindFrom(line, prefix, from).Some? ==> OccursAt(line, prefix, FindFrom(line, prefix, from).value)
    ensures FindFrom(line, prefix, from).Some? ==>
      forall j :: from <= j < FindFrom(line, prefix, from).value ==> !OccursAt(line, prefix, j)
    ensures FindFrom(line, prefix, from).None? ==>
      forall j :: from <= j <= |line| ==> !OccursAt(line, prefix, j)
    decreases |line| - from
  {
    if !OccursAt(line, prefix, from) && from < |line| {
      FindFromFirst(line, prefix, from + 1);
    }
  }

  /** std::string::find: the first position at which the prefix occurs. */
  function Find(line: string, prefix: string): (r: Option<nat>)
    ensures r.Some? ==> r.value + |prefix| <= |line|
  {
    FindFrom(line, prefix, 0)
  }

  /** Find reports the first occurrence, and reports none only when there is none. */
  lemma FindFirst(line: string, prefix: string)
    ensures Find(line, prefix).Some? <==> exists j :: 0 <= j <= |line| && OccursAt(line, prefix, j)
    ensures Find(line, prefix).Some? ==> OccursAt(line, prefix, Find(line, prefix).value)
    ensures Find(line, prefix).Some? ==>
      forall j :: 0 <= j < Find(line, prefix).value ==> !OccursAt(line, prefix, j)
  {
    FindFromFirst(line, prefix, 0);
  }

  /**
   * extract_payload: the text after the first occurrence of the prefix,
   * trimmed; empty when the prefix does not occur.
   */
  function Payload(line: string, prefix: string): (r: string)
  {
    var pos := Find(line, prefix);
    if pos.None? then "" else Trim(line[pos.value + |prefix|..])
  }

  /** Unfolds Payload where the prefix was found. */
  lemma PayloadFound(line: string, prefix: string)
    requires Find(line, prefix).Some?
    ensures Payload(line, prefix) == Trim(line[Find(line, prefix).value + |prefix|..])
  {
  }

  method ExtractPayload(line: string, prefix: string) returns (r: string)
    ensures r == Payload(line, prefix)
  {
    if Find(line, prefix).None? {
      r := "";
    } else {
      PayloadFound(line, prefix);
      r := TrimWhitespace(line[Find(line, prefix).value + |prefix|..]);
    }
  }

  /** The payload never starts or ends with white space. */
  lemma PayloadTrimmed(line: string, prefix: string)
    ensures Trimmed(Payload(line, prefix))
  {
  }

  /** No occurrence of the prefix: the payload is empty. */
  lemma PayloadAbsent(line: string, prefix: string)
    requires forall j :: 0 <= j <= |line| ==> !OccursAt(line, prefix, j)
    ensures Payload(line, prefix) == ""
  {
    FindFirst(line, prefix);
  }

  /** A line that starts with the prefix: the payload is the rest of the line, trimmed. */
  lemma PayloadAtStart(prefix: string, rest: string)
    ensures Payload(prefix + rest, prefix) == Trim(rest)
  {
    var line := prefix + rest;
    assert OccursAt(line, prefix, 0);
    assert FindFrom(line, prefix, 0) == Some(0);
    assert line[|prefix|..] == rest;
  }

  /** The payload is taken after the first occurrence, not a later one. */
  lemma PayloadAfterFirst(line: string, prefix: string, i: nat)
    requires OccursAt(line, prefix, i)
    requires forall j :: 0 <= j < i ==> !OccursAt(line, prefix, j)
    ensures Payload(line, prefix) == Trim(line[i + |prefix|..])
  {
    FindAt(line, prefix, i);
    PayloadFound(line, prefix);
  }

  /** The first occurrence is what Find reports. */
  lemma FindAt(line: string, prefix: string, i: nat)
    requires OccursAt(line, prefix, i)
    requires forall j :: 0 <= j < i ==> !OccursAt(line, prefix, j)
    ensures Find(line, prefix) == Some(i)
  {
    FindFirst(line, prefix);
    var k := Find(line, prefix).value;
    assert !(k < i) && !(i < k);
  }

  /** The number of double-quote characters in a string. */
  function QuoteCount(s: string): nat
  {
    if s == [] then 0
    else QuoteCount(s[..|s| - 1]) + (if s[|s| - 1] == '"' then 1 else 0)
  }

  /** A comma outside every double-quoted span: one that ends a field. */
  predicate Separator(p: string, i: int)
  {
    0 <= i < |p| && p[i] == ',' && QuoteCount(p[..i]) % 2 == 0
  }

  /** The locals of split_args: fields so far, the field being read, and whether a quote is open. */
  datatype Splitter = Splitter(fields: seq<string>, current: string, inQuotes: bool)

  const SPLIT_START := Splitter([], "", false)

  /** One character of the split_args loop. */
  function SplitStep(st: Splitter, c: char): Splitter
  {
    if c == '"' then st.(inQuotes := !st.inQuotes, current := st.current + [c])
    else if c == ',' && !st.inQuotes then Splitter(st.fields + [Trim(st.current)], "", st.inQuotes)
    else st.(current := st.current + [c])
  }

  /** The splitter state after running the loop over the text from a given state. */
  function SplitFrom(st: Splitter, text: string): Splitter
  {
    if text == [] then st else SplitStep(SplitFrom(st, text[..|text| - 1]), text[|text| - 1])
  }

  /** split_args: the trimmed fields, plus the final fragment when it is not empty. */
  function Fields(payload: string): (r: seq<string>)
    ensures payload == [] ==> r == []
  {
    var st := SplitFrom(SPLIT_START, payload);
    if st.current != [] then st.fields + [Trim(st.current)] else st.fields
  }

  method SplitArgs(payload: string) returns (result: seq<string>)
    ensures result == Fields(payload)
  {
    result := [];
    var current := "";
    var inQuotes := false;
    for i := 0 to |payload|
      invariant Splitter(result, current, inQuotes) == SplitFrom(SPLIT_START, payload[..i])
    {
      var c := payload[i];
      assert payload[..i + 1][..i] == payload[..i];
      if c == '"' {
        inQuotes := !inQuotes;
        current := current + [c];
      } else if c == ',' && !inQuotes {
        var field := TrimWhitespace(current);
        result := result + [field];
        current := "";
      } else {
        current := current + [c];
      }
    }
    assert payload[..|payload|] == payload;
    if current != [] {
      var field := TrimWhitespace(current);
      result := result + [field];
    }
  }

  /** Running the splitter over a + b is running it over a, then over b. */
  lemma {:induction false} SplitFromAppend(st: Splitter, a: string, b: string)
    ensures SplitFrom(st, a + b) == SplitFrom(SplitFrom(st, a), b)
  {
    if b == [] {
      assert a + b == a;
    } else {
      var b' := b[..|b| - 1];
      assert (a + b)[..|a + b| - 1] == a + b';
      SplitFromAppend(st, a, b');
    }
  }

  /** From a state between fields, the splitter adds the fields of the text to those it holds. */
  lemma {:induction false} SplitFromFresh(done: seq<string>, text: string)
    ensures SplitFrom(Splitter(done, "", false), text)
      == var g := SplitFrom(SPLIT_START, text); Splitter(done + g.fields, g.current, g.inQuotes)
  {
    if text == [] {
      assert done + [] == done;
    } else {
      SplitFromFresh(done, text[..|text| - 1]);
      var g := SplitFrom(SPLIT_START, text[..|text| - 1]);
      assert done + (g.fields + [Trim(g.current)]) == (done + g.fields) + [Trim(g.current)];
    }
  }

  /** The number of double quotes in a concatenation. */
  lemma {:induction false} QuoteCountAppend(a: string, b: string)
    ensures QuoteCount(a + b) == QuoteCount(a) + QuoteCount(b)
  {
    if b == [] {
      assert a + b == a;
    } else {
      assert (a + b)[..|a + b| - 1] == a + b[..|b| - 1];
      QuoteCountAppend(a, b[..|b| - 1]);
    }
  }

  /**
   * Text with no field-ending comma from the start of a field only extends
   * the current field; the quote state is the parity of its quotes.
   */
  lemma {:induction false} SplitWithoutSeparator(st: Splitter, text: string)
    requires !st.inQuotes
    requires forall i :: 0 <= i < |text| ==> !Separator(text, i)
    ensures SplitFrom(st, text) == Splitter(st.fields, st.current + text, QuoteCount(text) % 2 == 1)
  {
    if text == [] {
      assert st.current + text == st.current;
    } else {
      var t := text[..|text| - 1];
      forall i | 0 <= i < |t|
        ensures !Separator(t, i)
      {
        assert text[..i] == t[..i];
        assert !Separator(text, i);
      }
      SplitWithoutSeparator(st, t);
      assert text[..|t|] == t;
      assert !Separator(text, |t|);
      assert st.current + t + [text[|t|]] == st.current + text;
    }
  }

  /** A payload without a field-ending comma is one field, or none when empty. */
  lemma FieldsWithoutSeparator(p: string)
    requires forall i :: 0 <= i < |p| ==> !Separator(p, i)
    ensures Fields(p) == if p == [] then [] else [Trim(p)]
  {
    SplitWithoutSeparator(SPLIT_START, p);
    assert "" + p == p;
  }

  /**
   * At the first field-ending comma the payload yields the trimmed text
   * before it, then the fields of the text after it.
   */
  lemma FieldsAtFirstSeparator(p: string, i: nat)
    requires Separator(p, i)
    requires forall j :: 0 <= j < i ==> !Separator(p, j)
    ensures Fields(p) == [Trim(p[..i])] + Fields(p[i + 1..])
  {
    var head, tail := p[..i], p[i + 1..];
    forall j | 0 <= j < |head|
      ensures !Separator(head, j)
    {
      assert head[..j] == p[..j];
      assert !Separator(p, j);
    }
    SplitFirstField(head);
    assert p == (head + [',']) + tail;
    SplitFromAppend(SPLIT_START, head + [','], tail);
    SplitFromFresh([Trim(head)], tail);
    FieldsPrepend(Trim(head), tail);
  }

  /** A first field closed by a comma outside quotes. */
  lemma SplitFirstField(head: string)
    requires forall j :: 0 <= j < |head| ==> !Separator(head, j)
    requires QuoteCount(head) % 2 == 0
    ensures SplitFrom(SPLIT_START, head + [',']) == Splitter([Trim(head)], "", false)
  {
    var text := head + [','];
    assert SplitFrom(SPLIT_START, head) == Splitter([], head, false) by {
      SplitWithoutSeparator(SPLIT_START, head);
      assert "" + head == head;
    }
    assert text[..|text| - 1] == head;
    assert SplitFrom(SPLIT_START, text) == SplitStep(Splitter([], head, false), ',');
  }

  /** Fields read after one finished field. */
  lemma FieldsPrepend(f: string, tail: string)
    ensures (var g := SplitFrom(SPLIT_START, tail);
             var st := Splitter([f] + g.fields, g.current, g.inQuotes);
             (if st.current != [] then st.fields + [Trim(st.current)] else st.fields)
               == [f] + Fields(tail))
  {
    var g := SplitFrom(SPLIT_START, tail);
    assert ([f] + g.fields) + [Trim(g.current)] == [f] + (g.fields + [Trim(g.current)]);
  }

  /** The number of double quotes over a list of fields. */
  function QuotesIn(fields: seq<string>): nat
  {
    if fields == [] then 0 else QuotesIn(fields[..|fields| - 1]) + QuoteCount(fields[|fields| - 1])
  }

  lemma {:induction false} QuoteCountNone(s: string)
    requires forall k :: 0 <= k < |s| ==> s[k] != '"'
    ensures QuoteCount(s) == 0
  {
    if s != [] {
      QuoteCountNone(s[..|s| - 1]);
    }
  }

  /** Trimming removes white space only, so it keeps every double quote. */
  lemma TrimKeepsQuotes(s: string)
    ensures QuoteCount(Trim(s)) == QuoteCount(s)
  {
    SkipSpaceKeepsQuotes(s);
    TrimRightKeepsQuotes(SkipSpace(s));
  }

  /** Leading white space holds no quote. */
  lemma SkipSpaceKeepsQuotes(s: string)
    ensures QuoteCount(SkipSpace(s)) == QuoteCount(s)
  {
    var n := SpaceRun(s);
    var u := s[n..];
    assert s == s[..n] + u;
    forall k | 0 <= k < |s[..n]|
      ensures s[..n][k] != '"'
    {
      assert IsSpace(s[k]);
    }
    QuoteCountNone(s[..n]);
    QuoteCountAppend(s[..n], u);
  }

  /** Trailing white space holds no quote. */
  lemma TrimRightKeepsQuotes(u: string)
    ensures QuoteCount(TrimRight(u)) == QuoteCount(u)
  {
    var m := |u| - TrailingSpaceRun(u);
    assert u == u[..m] + u[m..];
    forall k | 0 <= k < |u[m..]|
      ensures u[m..][k] != '"'
    {
      assert IsSpace(u[m + k]);
    }
    QuoteCountNone(u[m..]);
    QuoteCountAppend(u[..m], u[m..]);
  }

  /** The quote state of the split loop is the parity of the quotes read. */
  lemma {:induction false} SplitQuoteState(text: string)
    ensures SplitFrom(SPLIT_START, text).inQuotes <==> QuoteCount(text) % 2 == 1
  {
    if text != [] {
      var t := text[..|text| - 1];
      SplitQuoteState(t);
      ParityStep(QuoteCount(t));
    }
  }

  /** Every field the split loop has finished is trimmed. */
  lemma {:induction false} SplitFieldsTrimmed(text: string)
    ensures forall k :: 0 <= k < |SplitFrom(SPLIT_START, text).fields| ==>
      Trimmed(SplitFrom(SPLIT_START, text).fields[k])
  {
    if text != [] {
      SplitFieldsTrimmed(text[..|text| - 1]);
    }
  }

  /** The split loop loses no double quote: each is in a finished field or the current one. */
  lemma {:induction false} SplitKeepsQuotes(text: string)
    ensures QuotesIn(SplitFrom(SPLIT_START, text).fields) + QuoteCount(SplitFrom(SPLIT_START, text).current)
      == QuoteCount(text)
  {
    if text != [] {
      var t := text[..|text| - 1];
      var c := text[|text| - 1];
      SplitKeepsQuotes(t);
      var st := SplitFrom(SPLIT_START, t);
      assert SplitFrom(SPLIT_START, text) == SplitStep(st, c);
      QuoteCountAppend(st.current, [c]);
      assert QuoteCount([c]) == if c == '"' then 1 else 0 by {
        assert [c][..0] == [];
      }
      if c == ',' && !st.inQuotes {
        TrimKeepsQuotes(st.current);
        assert (st.fields + [Trim(st.current)])[..|st.fields|] == st.fields;
      }
    }
  }

  /** Every field split_args returns is trimmed. */
  lemma FieldsTrimmed(p: string)
    ensures forall k :: 0 <= k < |Fields(p)| ==> Trimmed(Fields(p)[k])
  {
    SplitFieldsTrimmed(p);
  }

  /** split_args keeps every double quote of the payload. */
  lemma FieldsKeepQuotes(p: string)
    ensures QuotesIn(Fields(p)) == QuoteCount(p)
  {
    SplitKeepsQuotes(p);
    var st := SplitFrom(SPLIT_START, p);
    if st.current != [] {
      TrimKeepsQuotes(st.current);
      assert (st.fields + [Trim(st.current)])[..|st.fields|] == st.fields;
    }
  }

  /**
   * A double quote that is never closed: everything from the start of its
   * field to the end of the payload stays one field, commas included.
   */
  lemma UnclosedQuoteAbsorbsRest(head: string, rest: string)
    requires forall j :: 0 <= j < |head| ==> !Separator(head, j)
    requires QuoteCount(head) % 2 == 0
    requires forall k :: 0 <= k < |rest| ==> rest[k] != '"'
    ensures Fields(head + ['"'] + rest) == [Trim(head + ['"'] + rest)]
  {
    NoSeparatorPastOpenQuote(head, rest);
    FieldsWithoutSeparator(head + ['"'] + rest);
  }

  lemma NoSeparatorPastOpenQuote(head: string, rest: string)
    requires forall j :: 0 <= j < |head| ==> !Separator(head, j)
    requires QuoteCount(head) % 2 == 0
    requires forall k :: 0 <= k < |rest| ==> rest[k] != '"'
    ensures forall j :: 0 <= j < |head + ['"'] + rest| ==> !Separator(head + ['"'] + rest, j)
  {
    var p := head + ['"'] + rest;
    forall j | 0 <= j < |p|
      ensures !Separator(p, j)
    {
      if j < |head| {
        assert p[..j] == head[..j];
        assert !Separator(head, j);
      } else if j > |head| {
        InsideOpenQuote(head, rest, j);
      }
    }
  }

  lemma InsideOpenQuote(head: string, rest: string, j: nat)
    requires QuoteCount(head) % 2 == 0
    requires forall k :: 0 <= k < |rest| ==> rest[k] != '"'
    requires |head| < j < |head| + 1 + |rest|
    ensures !Separator(head + ['"'] + rest, j)
  {
    var r := rest[..j - |head| - 1];
    assert (head + ['"'] + rest)[..j] == head + ['"'] + r;
    QuoteCountNone(r);
    OpenQuoteCount(head, r);
  }

  /** An opening quote followed by no other quote leaves an odd count. */
  lemma OpenQuoteCount(head: string, r: string)
    requires QuoteCount(head) % 2 == 0
    requires QuoteCount(r) == 0
    ensures QuoteCount(head + ['"'] + r) % 2 == 1
  {
    var h := head + ['"'];
    assert QuoteCount(h) == QuoteCount(head) + 1 by {
      assert h[..|h| - 1] == head;
    }
    QuoteCountAppend(h, r);
    ParityStep(QuoteCount(head));
  }

  /** Adding one flips the parity. */
  lemma ParityStep(q: nat)
    ensures (q + 1) % 2 == 1 <==> q % 2 == 0
  {
  }


  /** "a," gives one field: the empty final fragment is not emitted. */
  lemma FieldsTrailingComma()
    ensures Fields("a,") == ["a"]
  {
    assert "a,"[..1] == "a";
    FieldsAtFirstSeparator("a,", 1);
    TrimOfTrimmed("a");
    assert "a,"[2..] == [];
  }

  /** "a, " gives two fields: the final fragment " " is emitted, trimmed to "". */
  lemma FieldsTrailingBlank()
    ensures Fields("a, ") == ["a", ""]
  {
    assert "a, "[..1] == "a";
    FieldsAtFirstSeparator("a, ", 1);
    TrimOfTrimmed("a");
    var rest := "a, "[2..];
    assert rest == " ";
    FieldsWithoutSeparator(rest);
    assert SpaceRun(rest) == 1;
  }

  /** A comma inside double quotes does not split. */
  lemma FieldsQuotedComma()
    ensures Fields("\"a,b\"") == ["\"a,b\""]
  {
    var p := "\"a,b\"";
    forall j | 0 <= j < |p|
      ensures !Separator(p, j)
    {
      if j == 2 {
        assert p[..2] == "\"a";
        assert "\"a"[..1] == "\"" && "\""[..0] == "";
        assert QuoteCount(p[..2]) == 1;
      }
    }
    FieldsWithoutSeparator(p);
    TrimOfTrimmed(p);
  }
}
