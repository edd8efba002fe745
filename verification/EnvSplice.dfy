/** Environment variables in a configuration text: matches are replaced in place, the last one first. */
module EnvSplice {
  import opened Wrappers
  import opened Bytes

  type Text = seq<byte>

  const MAX_INPUT_SIZE: nat := 1024 * 1024

  // A match of the pattern: where it is, the variable, and the default if one is given.
  datatype Capture = Capture(start: nat, end: nat, name: Text, fallback: Option<Text>)
  datatype Span = Span(start: nat, end: nat, value: Text)
  datatype ConfigError = TooLarge(size: nat) | NotFound(name: Text)

  // Matches come in order and do not overlap.
  ghost predicate Sorted(size: nat, spans: seq<Span>) {
    && (forall i | 0 <= i < |spans| :: spans[i].start <= spans[i].end <= size)
    && (forall i, j | 0 <= i < j < |spans| :: spans[i].end <= spans[j].start)
  }

  // ----- the reference: one pass from left to right -----

  // The text from a position on, with untouched gaps copied and each span replaced by its value.
  ghost function Spliced(input: Text, spans: seq<Span>, from: nat): Text
    requires Sorted(|input|, spans) && from <= |input| && (spans != [] ==> from <= spans[0].start)
  {
    if spans == [] then input[from..]
    else input[from..spans[0].start] + spans[0].value + Spliced(input, spans[1..], spans[0].end)
  }

  // ----- the code: spans are replaced in the text itself -----

  method ReplaceSpans(input: Text, spans: seq<Span>) returns (result: Text)
    requires Sorted(|input|, spans)
    ensures result == Spliced(input, spans, 0)
  {
    result := input;
    var i := |spans|;
    assert spans[i..] == [];
    while i > 0
      invariant 0 <= i <= |spans|
      invariant Done(input, spans, i, result)
    {
      i := i - 1;
      var span := spans[i];
      StaysInPlace(input, spans, i, result);
      ghost var before := result;
      result := result[..span.start] + span.value + result[span.end..];
      ReplaceNext(input, spans, i, before);
    }
    assert spans[0..] == spans && input[..0] == [];
  }

  // Where the part that is still as in the input ends.
  ghost function Border(spans: seq<Span>, i: nat): nat
    requires i <= |spans|
  {
    if i == 0 then 0 else spans[i - 1].end
  }

  // The spans from i on have been replaced; what precedes them is untouched.
  ghost predicate Done(input: Text, spans: seq<Span>, i: nat, result: Text)
    requires Sorted(|input|, spans) && i <= |spans|
  {
    result == input[..Border(spans, i)] + Spliced(input, spans[i..], Border(spans, i))
  }

  // A span is still where it was recorded when its turn comes.
  lemma StaysInPlace(input: Text, spans: seq<Span>, i: nat, result: Text)
    requires Sorted(|input|, spans) && i < |spans| && Done(input, spans, i + 1, result)
    ensures spans[i].end <= |result|
    ensures result[..spans[i].end] == input[..spans[i].end]
    ensures result[spans[i].end..] == Spliced(input, spans[i + 1..], spans[i].end)
  {
  }

  lemma ReplaceNext(input: Text, spans: seq<Span>, i: nat, result: Text)
    requires Sorted(|input|, spans) && i < |spans| && Done(input, spans, i + 1, result)
    requires spans[i].end <= |result|
    ensures Done(input, spans, i, result[..spans[i].start] + spans[i].value + result[spans[i].end..])
  {
    StaysInPlace(input, spans, i, result);
    var span, border := spans[i], Border(spans, i);
    assert spans[i..][0] == span && spans[i..][1..] == spans[i + 1..];
    assert result[..span.start] == result[..span.end][..span.start] == input[..span.start];
    assert input[..span.start] == input[..border] + input[border..span.start];
  }

  // ----- resolution of a whole text -----

  function ValueOf(env: map<Text, Text>, c: Capture): Option<Text> {
    if c.name in env then Some(env[c.name]) else c.fallback
  }

  ghost predicate InOrder(size: nat, captures: seq<Capture>) {
    && (forall i | 0 <= i < |captures| :: captures[i].start <= captures[i].end <= size)
    && (forall i, j | 0 <= i < j < |captures| :: captures[i].end <= captures[j].start)
  }

  ghost function SpansOf(env: map<Text, Text>, captures: seq<Capture>): (r: seq<Span>)
    requires forall i | 0 <= i < |captures| :: ValueOf(env, captures[i]).Some?
    ensures |r| == |captures|
    ensures forall size :: InOrder(size, captures) ==> Sorted(size, r)
    ensures forall i | 0 <= i < |r| && captures[i].name in env :: r[i].value == env[captures[i].name]
    ensures forall i | 0 <= i < |r| && captures[i].name !in env :: captures[i].fallback == Some(r[i].value)
  {
    seq(|captures|, i requires 0 <= i < |captures| =>
      Span(captures[i].start, captures[i].end, ValueOf(env, captures[i]).value))
  }

  // The first variable with neither a value nor a default is the one that is reported.
  method ResolveEnvVars(input: Text, captures: seq<Capture>, env: map<Text, Text>)
    returns (r: Result<Text, ConfigError>)
    requires InOrder(|input|, captures)
    ensures |input| > 0x10_0000 <==> r == Err(TooLarge(|input|))
    ensures r.Ok? <==> |input| <= 0x10_0000 && forall i | 0 <= i < |captures| :: ValueOf(env, captures[i]).Some?
    ensures r.Ok? ==> r.value == Spliced(input, SpansOf(env, captures), 0)
    ensures r.Err? && |input| <= 0x10_0000 ==>
      exists i :: 0 <= i < |captures| && FirstMissing(env, captures, i) && r == Err(NotFound(captures[i].name))
  {
    if |input| > MAX_INPUT_SIZE {
      return Err(TooLarge(|input|));
    }
    var spans: seq<Span> := [];
    for i := 0 to |captures|
      invariant forall j | 0 <= j < i :: ValueOf(env, captures[j]).Some?
      invariant spans == SpansOf(env, captures[..i])
    {
      var value := ValueOf(env, captures[i]);
      if value.None? {
        assert FirstMissing(env, captures, i);
        return Err(NotFound(captures[i].name));
      }
      spans := spans + [Span(captures[i].start, captures[i].end, value.value)];
    }
    assert captures[..|captures|] == captures;
    var text := ReplaceSpans(input, spans);
    r := Ok(text);
  }

  ghost predicate FirstMissing(env: map<Text, Text>, captures: seq<Capture>, i: nat)
    requires i < |captures|
  {
    && captures[i].name !in env && captures[i].fallback.None?
    && forall j | 0 <= j < i :: captures[j].name in env || captures[j].fallback.Some?
  }

  // ----- what a splice means -----

  function Removed(spans: seq<Span>): int {
    if spans == [] then 0 else spans[0].end - spans[0].start + Removed(spans[1..])
  }

  function Added(spans: seq<Span>): int {
    if spans == [] then 0 else |spans[0].value| + Added(spans[1..])
  }

  lemma {:induction false} SplicedLength(input: Text, spans: seq<Span>, from: nat)
    requires Sorted(|input|, spans) && from <= |input| && (spans != [] ==> from <= spans[0].start)
    ensures |Spliced(input, spans, from)| == |input| - from - Removed(spans) + Added(spans)
  {
    if spans != [] {
      SplicedLength(input, spans[1..], spans[0].end);
    }
  }

  // Spans replaced by what they cover change nothing.
  lemma {:induction false} SplicedIdentity(input: Text, spans: seq<Span>, from: nat)
    requires Sorted(|input|, spans) && from <= |input| && (spans != [] ==> from <= spans[0].start)
    requires forall i | 0 <= i < |spans| :: spans[i].value == input[spans[i].start..spans[i].end]
    ensures Spliced(input, spans, from) == input[from..]
  {
    if spans != [] {
      var span := spans[0];
      SplicedIdentity(input, spans[1..], span.end);
      assert input[from..] == input[from..span.start] + input[span.start..span.end] + input[span.end..];
    }
  }

  // Where a position goes that has k spans before it.
  function Moved(spans: seq<Span>, from: nat, k: nat, at: nat): int
    requires k <= |spans|
  {
    at - from - Removed(spans[..k]) + Added(spans[..k])
  }

  lemma MovedBehind(spans: seq<Span>, from: nat, k: nat, at: nat)
    requires 0 < k <= |spans|
    ensures
      Moved(spans, from, k, at) == spans[0].start - from + |spans[0].value| + Moved(spans[1..], spans[0].end, k - 1, at)
  {
    assert spans[..k][1..] == spans[1..][..k - 1];
  }

  // A character outside the spans moves by what the spans before it add and remove.
  lemma {:induction false} UntouchedCharacters(input: Text, spans: seq<Span>, from: nat, k: nat, at: nat)
    requires Sorted(|input|, spans) && from <= |input| && (spans != [] ==> from <= spans[0].start)
    requires k <= |spans| && from <= at < |input|
    requires (k > 0 ==> spans[k - 1].end <= at) && (k < |spans| ==> at < spans[k].start)
    ensures
      var moved := Moved(spans, from, k, at);
      0 <= moved < |Spliced(input, spans, from)| && Spliced(input, spans, from)[moved] == input[at]
  {
    if k > 0 {
      UntouchedCharacters(input, spans[1..], spans[0].end, k - 1, at);
      MovedBehind(spans, from, k, at);
      var moved := Moved(spans[1..], spans[0].end, k - 1, at);
      Behind(input[from..spans[0].start] + spans[0].value, Spliced(input, spans[1..], spans[0].end), moved, moved);
    }
  }

  // The value of each span stands in the result where the characters of the span would have moved to.
  lemma {:induction false} ReplacedSpans(input: Text, spans: seq<Span>, from: nat, k: nat)
    requires Sorted(|input|, spans) && from <= |input| && (spans != [] ==> from <= spans[0].start)
    requires k < |spans|
    ensures
      var moved := Moved(spans, from, k, spans[k].start);
      && 0 <= moved <= moved + |spans[k].value| <= |Spliced(input, spans, from)|
      && Spliced(input, spans, from)[moved..moved + |spans[k].value|] == spans[k].value
  {
    if k > 0 {
      ReplacedSpans(input, spans[1..], spans[0].end, k - 1);
      MovedBehind(spans, from, k, spans[k].start);
      var moved := Moved(spans[1..], spans[0].end, k - 1, spans[k].start);
      Behind(input[from..spans[0].start] + spans[0].value, Spliced(input, spans[1..], spans[0].end),
             moved, moved + |spans[k].value|);
    }
  }

  lemma Behind(head: Text, rest: Text, m: nat, n: nat)
    requires m <= n <= |rest|
    ensures (head + rest)[|head| + m..|head| + n] == rest[m..n]
    ensures m < |rest| ==> (head + rest)[|head| + m] == rest[m]
  {
  }
}
