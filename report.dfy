/**
 * The wrk2 report parser: the two latency-distribution section extractors, the
 * row recogniser, the folding of rows into quantile -> latency maps, and the
 * search for the throughput line.
 *
 * Regexes are modelled as explicit token grammars. A line is seen as its
 * whitespace-separated words; each group of a row pattern spans whole words
 * (the last one a prefix of its word). The unescaped `.` inside `\d+.\d+`
 * matches any character; the parameter `dotAny` selects between that pattern
 * as written (`true`) and one whose `.` is a literal decimal point (`false`).
 */
module Report {
  import opened Wrappers
  import opened Text
  import opened PyFloat

  const UncorrectedHeader: string :=
    "Latency Distribution (HdrHistogram - Uncorrected Latency (measured without taking delayed starts into account))"
  const CorrectedHeader: string := "Latency Distribution (HdrHistogram - Recorded Latency)"
  const Separator: string := "----------------------------------------------------------"

  // ---------------------------------------------------------------------------
  // Section extraction

  /** The "inside section" flag after one more line: a header sets it, a separator then clears it. */
  function StepFlag(inside: bool, line: string, header: string): bool {
    if Contains(line, Separator) then false
    else if Contains(line, header) then true
    else inside
  }

  /** The flag after the first `n` lines. */
  function FlagAfter(lines: seq<string>, header: string, n: nat): bool
    requires n <= |lines|
  {
    if n == 0 then false else StepFlag(FlagAfter(lines, header, n - 1), lines[n - 1], header)
  }

  /** The lines kept among the first `n`: each one after which the flag is set. */
  function SectionUpTo(lines: seq<string>, header: string, n: nat): seq<string>
    requires n <= |lines|
  {
    if n == 0 then []
    else SectionUpTo(lines, header, n - 1) + (if FlagAfter(lines, header, n) then [lines[n - 1]] else [])
  }

  /** What `get_raw_*_latency_histogram` returns for the report `text`. */
  function SectionLines(text: string, header: string): seq<string> {
    var lines := Split(text, '\n');
    SectionUpTo(lines, header, |lines|)
  }

  /** Line `i` lies in a header..separator interval: some line `j <= i` holds the header and no line of `j..i` holds a separator. */
  ghost predicate InInterval(lines: seq<string>, header: string, i: nat)
    requires i < |lines|
  {
    exists j :: 0 <= j <= i && Contains(lines[j], header) && NoSeparatorIn(lines, j, i)
  }

  ghost predicate NoSeparatorIn(lines: seq<string>, j: nat, i: nat)
    requires i < |lines|
  {
    forall k :: j <= k <= i ==> !Contains(lines[k], Separator)
  }

  /** The lines among the first `n` that lie in an interval, in input order: the reference definition of a section. */
  ghost function IntervalLines(lines: seq<string>, header: string, n: nat): seq<string>
    requires n <= |lines|
  {
    if n == 0 then []
    else IntervalLines(lines, header, n - 1) + (if InInterval(lines, header, n - 1) then [lines[n - 1]] else [])
  }

  /** The flag is set after line `i` exactly when line `i` lies in an interval. */
  lemma {:induction false} FlagAfterIff(lines: seq<string>, header: string, i: nat)
    requires i < |lines|
    ensures FlagAfter(lines, header, i + 1) <==> InInterval(lines, header, i)
  {
    if Contains(lines[i], Separator) {
    } else if Contains(lines[i], header) {
      assert NoSeparatorIn(lines, i, i);
    } else if i == 0 {
    } else {
      FlagAfterIff(lines, header, i - 1);
      if InInterval(lines, header, i) {
        var j :| 0 <= j <= i && Contains(lines[j], header) && NoSeparatorIn(lines, j, i);
        assert j != i;
        assert NoSeparatorIn(lines, j, i - 1);
      }
      if InInterval(lines, header, i - 1) {
        var j :| 0 <= j <= i - 1 && Contains(lines[j], header) && NoSeparatorIn(lines, j, i - 1);
        assert NoSeparatorIn(lines, j, i);
      }
    }
  }

  /** The extracted section is exactly the interval lines, in input order. */
  lemma {:induction false} SectionIsIntervalLines(lines: seq<string>, header: string, n: nat)
    requires n <= |lines|
    ensures SectionUpTo(lines, header, n) == IntervalLines(lines, header, n)
  {
    if n > 0 {
      SectionIsIntervalLines(lines, header, n - 1);
      FlagAfterIff(lines, header, n - 1);
    }
  }

  /** No kept line holds a separator. */
  lemma {:induction false} SectionHasNoSeparator(lines: seq<string>, header: string, n: nat)
    requires n <= |lines|
    ensures forall l :: l in SectionUpTo(lines, header, n) ==> !Contains(l, Separator)
  {
    if n > 0 {
      SectionHasNoSeparator(lines, header, n - 1);
    }
  }

  /** Before the first header line nothing is kept. */
  lemma {:induction false} NothingBeforeHeader(lines: seq<string>, header: string, n: nat)
    requires n <= |lines|
    requires forall k :: 0 <= k < n ==> !Contains(lines[k], header)
    ensures SectionUpTo(lines, header, n) == []
    ensures !FlagAfter(lines, header, n)
  {
    if n > 0 {
      NothingBeforeHeader(lines, header, n - 1);
    }
  }

  /** `get_raw_*_latency_histogram`: walk the lines with the "inside section" flag. */
  method ExtractSection(text: string, header: string) returns (kept: seq<string>)
    ensures kept == SectionLines(text, header)
  {
    var lines := Split(text, '\n');
    kept := [];
    var inside := false;
    var i := 0;
    while i < |lines|
      invariant 0 <= i <= |lines|
      invariant inside == FlagAfter(lines, header, i)
      invariant kept == SectionUpTo(lines, header, i)
    {
      var line := lines[i];
      if Contains(line, header) {
        inside := true;
      }
      if Contains(line, Separator) {
        inside := false;
      }
      if inside {
        kept := kept + [line];
      }
      i := i + 1;
    }
  }

  method UncorrectedLines(text: string) returns (kept: seq<string>)
    ensures kept == SectionLines(text, UncorrectedHeader)
  {
    kept := ExtractSection(text, UncorrectedHeader);
  }

  method CorrectedLines(text: string) returns (kept: seq<string>)
    ensures kept == SectionLines(text, CorrectedHeader)
  {
    kept := ExtractSection(text, CorrectedHeader);
  }

  // ---------------------------------------------------------------------------
  // Row recogniser

  /** The character matched by the `.` of `\d+.\d+`: anything as written, a literal point when `dotAny` is false. */
  predicate DotMatches(c: char, dotAny: bool) {
    dotAny || c == '.'
  }

  /** A whole word matches `\d+.\d+`. */
  predicate DecimalWord(w: string, dotAny: bool) {
    exists i :: 1 <= i < |w| - 1 && AllDigits(w[..i]) && DotMatches(w[i], dotAny) && AllDigits(w[i + 1..])
  }

  /** A prefix of the word matches `\d+.\d+` (the last group need not end the word). */
  predicate DecimalPrefix(w: string, dotAny: bool) {
    exists i :: 1 <= i < |w| - 1 && AllDigits(w[..i]) && DotMatches(w[i], dotAny) && IsDigit(w[i + 1])
  }

  /** A whole word matches `\d+`. */
  predicate CountWord(w: string) {
    |w| > 0 && AllDigits(w)
  }

  /**
   * Words `k .. k+3` match a row pattern: `value percentile count` and then a
   * decimal (first pattern, `inf` false) or the literal `inf` (second pattern).
   */
  predicate RowAt(ws: seq<string>, k: nat, dotAny: bool, inf: bool) {
    && k + 4 <= |ws|
    && DecimalWord(ws[k], dotAny)
    && DecimalWord(ws[k + 1], dotAny)
    && CountWord(ws[k + 2])
    && (if inf then StartsWith(ws[k + 3], "inf") else DecimalPrefix(ws[k + 3], dotAny))
  }

  /** The leftmost `k >= from` at which a row pattern matches, as `re.search` finds it. */
  function FindRow(ws: seq<string>, from: nat, dotAny: bool, inf: bool): (r: Option<nat>)
    ensures r.Some? ==> from <= r.value && RowAt(ws, r.value, dotAny, inf)
    ensures r.Some? ==> forall j :: from <= j < r.value ==> !RowAt(ws, j, dotAny, inf)
    ensures r.None? ==> forall j :: from <= j ==> !RowAt(ws, j, dotAny, inf)
    decreases |ws| - from
  {
    if from + 4 > |ws| then None
    else if RowAt(ws, from, dotAny, inf) then Some(from)
    else FindRow(ws, from + 1, dotAny, inf)
  }

  /** The first word a group may start at: `\s+` must come before it, so a word at the very start of the line is skipped. */
  function FirstEligible(line: string): nat {
    if |line| > 0 && IsSpace(line[0]) then 0 else 1
  }

  /** The row pattern selected by `inf` matches at `k` and at no eligible word from `from` before it. */
  ghost predicate LeftmostRow(ws: seq<string>, from: nat, k: nat, dotAny: bool, inf: bool) {
    from <= k && RowAt(ws, k, dotAny, inf) && forall j :: from <= j < k ==> !RowAt(ws, j, dotAny, inf)
  }

  function CaptureAt(ws: seq<string>, k: nat): Capture
    requires k + 1 < |ws|
  {
    Capture(ws[k], ws[k + 1])
  }

  /** The two captured texts `(latency, quantile)` of a recognised row: groups 1 and 2 of the pattern that matched. */
  datatype Capture = Capture(latency: string, quantile: string)

  /** The two regex searches of `extract_latency`: the `inf` pattern is tried only when the decimal one finds nothing. */
  function RecogniseRow(line: string, dotAny: bool): Option<Capture> {
    var ws := Words(line);
    match FindRow(ws, FirstEligible(line), dotAny, false)
    case Some(k) => Some(CaptureAt(ws, k))
    case None =>
      match FindRow(ws, FirstEligible(line), dotAny, true)
      case Some(k) => Some(CaptureAt(ws, k))
      case None => None
  }

  /**
   * A row is recognised exactly when one of the two patterns matches at an
   * eligible word; the captures are the first two fields of the leftmost match
   * of the decimal pattern, and of the `inf` pattern only when the decimal one
   * matches nowhere.
   */
  lemma RowRecognition(line: string, dotAny: bool)
    ensures RecogniseRow(line, dotAny).Some? ==>
      exists k :: FirstEligible(line) <= k && (RowAt(Words(line), k, dotAny, false) || RowAt(Words(line), k, dotAny, true))
    ensures (exists k :: FirstEligible(line) <= k && (RowAt(Words(line), k, dotAny, false) || RowAt(Words(line), k, dotAny, true))) ==>
      RecogniseRow(line, dotAny).Some?
    ensures (exists k :: FirstEligible(line) <= k && RowAt(Words(line), k, dotAny, false)) ==>
      RecogniseRow(line, dotAny).Some? &&
      exists k :: LeftmostRow(Words(line), FirstEligible(line), k, dotAny, false) && RecogniseRow(line, dotAny).value == CaptureAt(Words(line), k)
    ensures (forall k :: FirstEligible(line) <= k ==> !RowAt(Words(line), k, dotAny, false)) && RecogniseRow(line, dotAny).Some? ==>
      exists k :: LeftmostRow(Words(line), FirstEligible(line), k, dotAny, true)
        && RecogniseRow(line, dotAny).value == CaptureAt(Words(line), k)
  {
    var ws := Words(line);
    match FindRow(ws, FirstEligible(line), dotAny, false)
    case Some(k) =>
      assert RecogniseRow(line, dotAny) == Some(CaptureAt(ws, k));
      assert LeftmostRow(ws, FirstEligible(line), k, dotAny, false);
      assert FirstEligible(line) <= k && (RowAt(ws, k, dotAny, false) || RowAt(ws, k, dotAny, true));
    case None =>
      match FindRow(ws, FirstEligible(line), dotAny, true)
      case Some(k) =>
        assert LeftmostRow(ws, FirstEligible(line), k, dotAny, true);
        assert FirstEligible(line) <= k && (RowAt(ws, k, dotAny, false) || RowAt(ws, k, dotAny, true));
      case None =>
  }

  /** One histogram entry. */
  datatype Sample = Sample(quantile: real, latency: real)

  /** What can go wrong while parsing: `float()` raising `ValueError` on a captured text. */
  datatype ParseError = BadFloat(text: string)

  /**
   * `extract_latency`: no pair when no pattern matches, both values when one
   * does; `float()` is applied to the latency first, then to the quantile.
   */
  function SampleOf(line: string, dotAny: bool): Result<Option<Sample>, ParseError> {
    match RecogniseRow(line, dotAny)
    case None => Ok(None)
    case Some(c) =>
      match Float(c.latency)
      case None => Err(BadFloat(c.latency))
      case Some(lat) =>
        match Float(c.quantile)
        case None => Err(BadFloat(c.quantile))
        case Some(q) => Ok(Some(Sample(q, lat)))
  }

  /** `extract_latency` as written. */
  function ExtractLatency(line: string): Result<Option<Sample>, ParseError> {
    SampleOf(line, true)
  }

  /**
   * What `extract_latency` gives: nothing for a line that is not a row, the
   * two floats of a recognised row, or the `ValueError` of the first of its
   * two captures (latency, then quantile) that `float()` refuses.
   */
  lemma ExtractLatencyCases(line: string)
    ensures ExtractLatency(line) == Ok(None) <==> RecogniseRow(line, true).None?
    ensures ExtractLatency(line).Ok? && ExtractLatency(line).value.Some? ==>
      var c := RecogniseRow(line, true).value;
      Float(c.latency) == Some(ExtractLatency(line).value.value.latency)
      && Float(c.quantile) == Some(ExtractLatency(line).value.value.quantile)
    ensures ExtractLatency(line).Err? ==>
      var c := RecogniseRow(line, true).value;
      || (Float(c.latency).None? && ExtractLatency(line).error == BadFloat(c.latency))
      || (Float(c.latency).Some? && Float(c.quantile).None? && ExtractLatency(line).error == BadFloat(c.quantile))
  {
  }

  /** `extract_latency` with `\d+\.\d+`: every recognised row converts, so the row parser never raises. */
  lemma StrictRowNeverFails(line: string)
    ensures SampleOf(line, false).Ok?
    ensures SampleOf(line, false) == Ok(None) <==> RecogniseRow(line, false).None?
  {
    match RecogniseRow(line, false)
    case None =>
    case Some(c) =>
      StrictWordConverts(c.latency);
      StrictWordConverts(c.quantile);
  }

  /** A word matching `\d+\.\d+` is accepted by `float()`. */
  lemma StrictWordConverts(w: string)
    ensures DecimalWord(w, false) ==> Float(w).Some?
  {
    if DecimalWord(w, false) {
      var i :| 1 <= i < |w| - 1 && AllDigits(w[..i]) && w[i] == '.' && AllDigits(w[i + 1..]);
      assert w == w[..i] + "." + w[i + 1..];
      FloatOfDecimal(w[..i], w[i + 1..]);
    }
  }

  // ---------------------------------------------------------------------------
  // Folding rows into a histogram

  /** What `extract_latency` gives for each line. */
  function SamplesOf(lines: seq<string>, dotAny: bool): (r: seq<Result<Option<Sample>, ParseError>>)
    ensures |r| == |lines| && forall i :: 0 <= i < |lines| ==> r[i] == SampleOf(lines[i], dotAny)
  {
    seq(|lines|, i requires 0 <= i < |lines| => SampleOf(lines[i], dotAny))
  }

  /** Row result `row` is an entry for quantile `q`. */
  predicate HasQuantile(row: Result<Option<Sample>, ParseError>, q: real) {
    row.Ok? && row.value.Some? && row.value.value.quantile == q
  }

  /**
   * The quantile -> latency map built from the first `n` row results: each
   * recognised row stores its latency under its quantile, replacing an earlier
   * entry for the same quantile, or the first `ValueError` ends the fold.
   */
  function Fold(rows: seq<Result<Option<Sample>, ParseError>>, n: nat): Result<map<real, real>, ParseError>
    requires n <= |rows|
  {
    if n == 0 then Ok(map[])
    else
      match Fold(rows, n - 1)
      case Err(e) => Err(e)
      case Ok(m) =>
        match rows[n - 1]
        case Err(e) => Err(e)
        case Ok(None) => Ok(m)
        case Ok(Some(s)) => Ok(m[s.quantile := s.latency])
  }

  /** The histogram `process_wrk_output` builds from the lines of one section. */
  function Histogram(lines: seq<string>, dotAny: bool): Result<map<real, real>, ParseError> {
    var rows := SamplesOf(lines, dotAny);
    Fold(rows, |rows|)
  }

  /** The fold fails exactly when some row fails to convert, and then with the error of the first such row. */
  lemma {:induction false} FoldErrors(rows: seq<Result<Option<Sample>, ParseError>>, n: nat)
    requires n <= |rows|
    ensures Fold(rows, n).Err? <==> exists i :: 0 <= i < n && rows[i].Err?
    ensures Fold(rows, n).Err? ==>
      exists i :: 0 <= i < n && rows[i] == Err(Fold(rows, n).error) && forall j :: 0 <= j < i ==> rows[j].Ok?
  {
    if n > 0 {
      FoldErrors(rows, n - 1);
    }
  }

  /** A key is present exactly when some row is an entry for it: unrecognised rows add nothing. */
  lemma {:induction false} FoldKeys(rows: seq<Result<Option<Sample>, ParseError>>, n: nat)
    requires n <= |rows|
    ensures Fold(rows, n).Ok? ==>
      forall q :: q in Fold(rows, n).value <==> exists i :: 0 <= i < n && HasQuantile(rows[i], q)
  {
    if n > 0 {
      FoldKeys(rows, n - 1);
      if Fold(rows, n).Ok? && rows[n - 1].value.Some? {
        assert HasQuantile(rows[n - 1], rows[n - 1].value.value.quantile);
      }
    }
  }

  /** A quantile that repeats keeps the latency of its last row. */
  lemma {:induction false} FoldLastWins(rows: seq<Result<Option<Sample>, ParseError>>, n: nat, i: nat, q: real)
    requires i < n <= |rows|
    requires Fold(rows, n).Ok?
    requires HasQuantile(rows[i], q)
    requires forall j :: i < j < n ==> !HasQuantile(rows[j], q)
    ensures q in Fold(rows, n).value && Fold(rows, n).value[q] == rows[i].value.value.latency
  {
    if i < n - 1 {
      FoldLastWins(rows, n - 1, i, q);
    }
  }

  lemma {:induction false} FoldErrorPersists(rows: seq<Result<Option<Sample>, ParseError>>, i: nat, n: nat)
    requires i <= n <= |rows|
    requires Fold(rows, i).Err?
    ensures Fold(rows, n) == Fold(rows, i)
    decreases n - i
  {
    if i < n {
      FoldErrorPersists(rows, i, n - 1);
    }
  }

  /** One turn of the loop: a failing row ends the whole fold with its error, any other row extends the map. */
  lemma FoldStep(rows: seq<Result<Option<Sample>, ParseError>>, i: nat, m: map<real, real>)
    requires i < |rows| && Fold(rows, i) == Ok(m)
    ensures rows[i].Err? ==> Fold(rows, |rows|) == Err(rows[i].error)
    ensures rows[i] == Ok(None) ==> Fold(rows, i + 1) == Ok(m)
    ensures rows[i].Ok? && rows[i].value.Some? ==>
      Fold(rows, i + 1) == Ok(m[rows[i].value.value.quantile := rows[i].value.value.latency])
  {
    if rows[i].Err? {
      FoldErrorPersists(rows, i + 1, |rows|);
    }
  }

  /** One step per section line: a recognised row stores its latency under its quantile, an unrecognised line is skipped, a refused capture ends the loop. */
  method FoldRows(lines: seq<string>) returns (r: Result<map<real, real>, ParseError>)
    ensures r == Histogram(lines, true)
  {
    ghost var rows := SamplesOf(lines, true);
    var m := map[];
    var i := 0;
    while i < |lines|
      invariant 0 <= i <= |lines|
      invariant Fold(rows, i) == Ok(m)
    {
      var s := ExtractLatency(lines[i]);
      assert s == rows[i];
      FoldStep(rows, i, m);
      if s.Err? {
        return Err(s.error);
      }
      if s.value.Some? {
        m := m[s.value.value.quantile := s.value.value.latency];
      }
      i := i + 1;
    }
    r := Ok(m);
  }

  // ---------------------------------------------------------------------------
  // Throughput line

  const RpsLabel: string := "Requests/sec:"

  /** The label occurs at position `p`. */
  predicate LabelAt(t: string, p: nat) {
    p + |RpsLabel| <= |t| && t[p..p + |RpsLabel|] == RpsLabel
  }

  /** Where the digits start after the whitespace that begins at `q`. */
  function DigitsStart(t: string, q: nat): (d: nat)
    requires q <= |t|
    ensures q <= d <= |t|
  {
    q + SpaceRun(t[q..])
  }

  /** `\s+\d` matches at position `q`. */
  predicate SpacesThenDigit(t: string, q: nat) {
    q <= |t| && DigitsStart(t, q) > q && DigitsStart(t, q) < |t| && IsDigit(t[DigitsStart(t, q)])
  }

  /** `Requests\/sec:\s+\d` matches at position `p` (the whitespace may run over line ends). */
  predicate RpsAt(t: string, p: nat) {
    LabelAt(t, p) && SpacesThenDigit(t, p + |RpsLabel|)
  }

  /** No line break in `t[a..b]`. */
  predicate NoNewline(t: string, a: nat, b: nat) {
    b <= |t| && forall i :: a <= i < b ==> t[i] != '\n'
  }

  /**
   * Group 1 of `(\d+.?\d*)` at the match at `p`: the digits, then, if the next
   * character is not a line break (and, when `dotAny` is false, is a point),
   * that character and the digits after it.
   */
  function RpsCapture(t: string, p: nat, dotAny: bool): (r: string)
    requires RpsAt(t, p)
    ensures |r| > 0 && IsDigit(r[0]) && StartsWith(t[DigitsStart(t, p + |RpsLabel|)..], r)
  {
    NumberPrefix(t[DigitsStart(t, p + |RpsLabel|)..], dotAny)
  }

  /** `\d+.?\d*` at the start of `u`, greedy; `.` does not match a line break. */
  function NumberPrefix(u: string, dotAny: bool): (r: string)
    requires |u| > 0 && IsDigit(u[0])
    ensures |r| > 0 && IsDigit(r[0]) && StartsWith(u, r)
  {
    var n := DigitRun(u);
    if n < |u| && u[n] != '\n' && DotMatches(u[n], dotAny) then u[..n + 1 + DigitRun(u[n + 1..])]
    else u[..n]
  }

  /** Where `Requests\/sec:\s+\d` matches in `t`, position by position. */
  function MatchMap(t: string): (ms: seq<bool>)
    ensures |ms| == |t| && forall p :: 0 <= p < |t| ==> ms[p] == RpsAt(t, p)
    ensures forall p :: 0 <= p < |t| && ms[p] ==> t[p] != '\n'
  {
    var ms := seq(|t|, p requires 0 <= p < |t| => RpsAt(t, p));
    forall p | 0 <= p < |t| && ms[p] ensures t[p] != '\n' {
      RpsAtLabel(t, p);
    }
    ms
  }

  /** A match starts with the label's first character, so never at a line break. */
  lemma RpsAtLabel(t: string, p: nat)
    ensures RpsAt(t, p) ==> t[p] == 'R'
  {
    if RpsAt(t, p) {
      assert t[p..p + |RpsLabel|][0] == t[p];
    }
  }

  /** The leftmost match at or after `from`. */
  function FirstMatch(ms: seq<bool>, from: nat): (r: Option<nat>)
    ensures r.Some? ==> from <= r.value < |ms| && ms[r.value]
    ensures r.Some? ==> forall j :: from <= j < r.value ==> !ms[j]
    ensures r.None? ==> forall j :: from <= j < |ms| ==> !ms[j]
    decreases |ms| - from
  {
    if from >= |ms| then None
    else if ms[from] then Some(from)
    else FirstMatch(ms, from + 1)
  }

  /** The greedy leading `.*` moves on to the last match on the line that holds `best`. */
  function LastOnLine(t: string, ms: seq<bool>, best: nat, k: nat): (r: nat)
    requires |ms| == |t| && forall p :: 0 <= p < |t| && ms[p] ==> t[p] != '\n'
    requires best < k <= |t| && ms[best] && NoNewline(t, best, k)
    requires forall j :: best < j < k ==> !ms[j]
    ensures best <= r < |t| && ms[r] && NoNewline(t, best, r)
    ensures forall j :: r < j < |t| && NoNewline(t, r, j) ==> !ms[j]
    decreases |t| - k
  {
    if k == |t| || t[k] == '\n' then best
    else if ms[k] then LastOnLine(t, ms, k, k + 1)
    else LastOnLine(t, ms, best, k + 1)
  }

  /**
   * Where the throughput search matches: nowhere when the label never occurs
   * followed by whitespace and a digit; otherwise, because the pattern opens with
   * a greedy `.*` that cannot cross a line break, at the last such occurrence on
   * the first line that has one.
   */
  function RpsPosition(t: string): (r: Option<nat>)
    ensures r.None? <==> forall p: nat :: !RpsAt(t, p)
    ensures r.Some? ==> RpsAt(t, r.value)
    ensures r.Some? ==> forall j: nat :: j < r.value && RpsAt(t, j) ==> NoNewline(t, j, r.value)
    ensures r.Some? ==> forall j: nat :: r.value < j && NoNewline(t, r.value, j) ==> !RpsAt(t, j)
  {
    var ms := MatchMap(t);
    match FirstMatch(ms, 0)
    case None =>
      NoMatchAnywhere(t, ms);
      None
    case Some(p0) =>
      assert t[p0] != '\n';
      assert NoNewline(t, p0, p0 + 1);
      var r := LastOnLine(t, ms, p0, p0 + 1);
      ChosenMatch(t, ms, p0, r);
      Some(r)
  }

  lemma NoMatchAnywhere(t: string, ms: seq<bool>)
    requires ms == MatchMap(t) && forall j :: 0 <= j < |ms| ==> !ms[j]
    ensures forall p: nat :: !RpsAt(t, p)
  {
    forall p: nat ensures !RpsAt(t, p) {
      if p < |t| {
        assert !ms[p];
      }
    }
  }

  lemma ChosenMatch(t: string, ms: seq<bool>, p0: nat, r: nat)
    requires ms == MatchMap(t) && p0 <= r < |t| && ms[r] && NoNewline(t, p0, r)
    requires forall j :: 0 <= j < p0 ==> !ms[j]
    requires forall j :: r < j < |t| && NoNewline(t, r, j) ==> !ms[j]
    ensures RpsAt(t, r)
    ensures forall j: nat :: j < r && RpsAt(t, j) ==> NoNewline(t, j, r)
    ensures forall j: nat :: r < j && NoNewline(t, r, j) ==> !RpsAt(t, j)
  {
    forall j: nat | j < r && RpsAt(t, j) ensures NoNewline(t, j, r) {
      assert ms[j];
    }
    forall j: nat | r < j && NoNewline(t, r, j) ensures !RpsAt(t, j) {
      if j < |t| {
        assert !ms[j];
      }
    }
  }

  /** The throughput of `process_wrk_output`: `None` without a match, else `float()` of group 1. */
  function RpsValue(t: string, dotAny: bool): (r: Result<Option<real>, ParseError>)
    ensures r == Ok(None) <==> forall p: nat :: !RpsAt(t, p)
    ensures r.Ok? && r.value.Some? ==>
      RpsPosition(t).Some? && Float(RpsCapture(t, RpsPosition(t).value, dotAny)) == r.value
    ensures RpsPosition(t).Some? && Float(RpsCapture(t, RpsPosition(t).value, dotAny)).Some? ==>
      r == Ok(Float(RpsCapture(t, RpsPosition(t).value, dotAny)))
    ensures r.Err? ==>
      RpsPosition(t).Some? && Float(RpsCapture(t, RpsPosition(t).value, dotAny)).None?
      && r.error == BadFloat(RpsCapture(t, RpsPosition(t).value, dotAny))
  {
    match RpsPosition(t)
    case None => Ok(None)
    case Some(p) =>
      var c := RpsCapture(t, p, dotAny);
      match Float(c)
      case None => Err(BadFloat(c))
      case Some(v) => Ok(Some(v))
  }

  /** With `\.?` in place of `.?` the capture is `D`, `D.` or `D.D'`, which `float()` always accepts. */
  lemma StrictRpsConverts(t: string, p: nat)
    requires RpsAt(t, p)
    ensures Float(RpsCapture(t, p, false)).Some?
  {
    StrictNumberConverts(t[DigitsStart(t, p + |RpsLabel|)..]);
  }

  lemma StrictNumberConverts(u: string)
    requires |u| > 0 && IsDigit(u[0])
    ensures Float(NumberPrefix(u, false)).Some?
  {
    var n := DigitRun(u);
    assert n > 0;
    var w := NumberPrefix(u, false);
    if n < |u| && u[n] == '.' {
      var rest := u[n + 1..];
      var k := DigitRun(rest);
      assert w == u[..n + 1 + k];
      assert w == u[..n] + "." + rest[..k];
      FloatOfDecimal(u[..n], rest[..k]);
    } else {
      assert w == u[..n];
    }
  }

  // ---------------------------------------------------------------------------
  // The whole report

  /** The `result` dict: the two histograms and the throughput (`None` when absent). */
  datatype Report = Report(corrected: map<real, real>, uncorrected: map<real, real>, rps: Option<real>)

  /**
   * `process_wrk_output(raw)`: the uncorrected rows are converted first, then
   * the corrected rows, then the throughput; the first `ValueError` ends the parse.
   */
  function WrkReport(text: string, dotAny: bool): Result<Report, ParseError> {
    match Histogram(SectionLines(text, UncorrectedHeader), dotAny)
    case Err(e) => Err(e)
    case Ok(u) =>
      match Histogram(SectionLines(text, CorrectedHeader), dotAny)
      case Err(e) => Err(e)
      case Ok(c) =>
        match RpsValue(text, dotAny)
        case Err(e) => Err(e)
        case Ok(rps) => Ok(Report(c, u, rps))
  }

  /** `process_wrk_output` as written: a function of the text alone, so two runs on the same text agree. */
  method ProcessWrkOutput(text: string) returns (r: Result<Report, ParseError>)
    ensures r == WrkReport(text, true)
  {
    var uncorrectedLines := UncorrectedLines(text);
    var correctedLines := CorrectedLines(text);
    var u := FoldRows(uncorrectedLines);
    if u.Err? {
      return Err(u.error);
    }
    var c := FoldRows(correctedLines);
    if c.Err? {
      return Err(c.error);
    }
    var rps := RpsValue(text, true);
    if rps.Err? {
      return Err(rps.error);
    }
    r := Ok(Report(c.value, u.value, rps.value));
  }

  /** In a successful parse, a quantile is a key exactly when some section line yields it. */
  lemma ReportKeys(text: string, dotAny: bool)
    requires WrkReport(text, dotAny).Ok?
    ensures forall q :: q in WrkReport(text, dotAny).value.uncorrected <==>
      exists i :: 0 <= i < |SectionLines(text, UncorrectedHeader)|
        && HasQuantile(SampleOf(SectionLines(text, UncorrectedHeader)[i], dotAny), q)
    ensures forall q :: q in WrkReport(text, dotAny).value.corrected <==>
      exists i :: 0 <= i < |SectionLines(text, CorrectedHeader)|
        && HasQuantile(SampleOf(SectionLines(text, CorrectedHeader)[i], dotAny), q)
  {
    var ul, cl := SectionLines(text, UncorrectedHeader), SectionLines(text, CorrectedHeader);
    FoldKeys(SamplesOf(ul, dotAny), |ul|);
    FoldKeys(SamplesOf(cl, dotAny), |cl|);
  }

  /** In a successful parse, the throughput is absent exactly when no throughput line matches. */
  lemma ReportRpsAbsent(text: string, dotAny: bool)
    requires WrkReport(text, dotAny).Ok?
    ensures WrkReport(text, dotAny).value.rps.None? <==> forall p: nat :: !RpsAt(text, p)
  {
  }

  /** The parse fails when some row of the uncorrected section does not convert. */
  lemma UncorrectedRowFails(text: string, i: nat)
    requires i < |SectionLines(text, UncorrectedHeader)|
    requires SampleOf(SectionLines(text, UncorrectedHeader)[i], true).Err?
    ensures WrkReport(text, true).Err?
  {
    var ul := SectionLines(text, UncorrectedHeader);
    FoldErrors(SamplesOf(ul, true), |ul|);
  }

  /** With a literal point in both patterns the parse never raises. */
  lemma StrictReportNeverFails(text: string)
    ensures WrkReport(text, false).Ok?
  {
    var ul, cl := SectionLines(text, UncorrectedHeader), SectionLines(text, CorrectedHeader);
    StrictRowsConvert(ul);
    StrictRowsConvert(cl);
    FoldErrors(SamplesOf(ul, false), |ul|);
    FoldErrors(SamplesOf(cl, false), |cl|);
    match RpsPosition(text)
    case None =>
    case Some(p) => StrictRpsConverts(text, p);
  }

  lemma StrictRowsConvert(lines: seq<string>)
    ensures forall i :: 0 <= i < |lines| ==> SamplesOf(lines, false)[i].Ok?
  {
    forall i | 0 <= i < |lines| ensures SamplesOf(lines, false)[i].Ok? {
      StrictRowNeverFails(lines[i]);
    }
  }

  // ---------------------------------------------------------------------------
  // Which lines of a wrk2 report are rows

  /**
   * A line of fewer than four words is never a histogram row: the percentile
   * summary lines of the report, such as ` 50.000%  1.23ms`, are skipped.
   */
  lemma ShortLineIsNoRow(line: string, dotAny: bool)
    requires |Words(line)| < 4
    ensures RecogniseRow(line, dotAny).None?
  {
  }

  /**
   * An indented line of four columns, value, percentile, total count and
   * `1/(1-percentile)`, the shape of a row of the report's detailed percentile
   * spectrum, is recognised, with its value and its percentile as the captures.
   */
  lemma SpectrumRowRecognised(line: string, dotAny: bool)
    requires |line| > 0 && IsSpace(line[0])
    requires |Words(line)| == 4
    requires DecimalWord(Words(line)[0], dotAny) && DecimalWord(Words(line)[1], dotAny)
    requires CountWord(Words(line)[2]) && DecimalPrefix(Words(line)[3], dotAny)
    ensures RecogniseRow(line, dotAny) == Some(Capture(Words(line)[0], Words(line)[1]))
  {
    assert RowAt(Words(line), 0, dotAny, false);
  }

  // ---------------------------------------------------------------------------
  // What the unescaped `.` lets through

  /** The words of the example row. */
  lemma ExampleRowWords()
    ensures Words(" 1x5 0.5 3 1.0") == ["1x5", "0.5", "3", "1.0"]
  {
    var ws := ["1x5", "0.5", "3", "1.0"];
    assert SpaceJoin(ws) == " 1x5 0.5 3 1.0";
    assert NoSpace(ws[0]) && NoSpace(ws[1]) && NoSpace(ws[2]) && NoSpace(ws[3]);
    WordsOfSpaceJoin(ws);
  }

  /** The example row's words match the first pattern as written. */
  lemma ExampleRowWindows()
    ensures FindRow(["1x5", "0.5", "3", "1.0"], 0, true, false) == Some(0)
  {
    var ws := ["1x5", "0.5", "3", "1.0"];
    assert DecimalWord("1x5", true) by { assert AllDigits("1x5"[..1]) && AllDigits("1x5"[2..]); }
    assert DecimalWord("0.5", true) by { assert AllDigits("0.5"[..1]) && AllDigits("0.5"[2..]); }
    assert DecimalPrefix("1.0", true) by {
      assert 1 <= 1 < |"1.0"| - 1 && AllDigits("1.0"[..1]) && DotMatches("1.0"[1], true) && IsDigit("1.0"[1 + 1]);
    }
    assert CountWord("3");
    assert RowAt(ws, 0, true, false);
  }

  /** With a literal point neither pattern matches the example row's words. */
  lemma ExampleRowStrictWindows()
    ensures FindRow(["1x5", "0.5", "3", "1.0"], 0, false, false) == None
    ensures FindRow(["1x5", "0.5", "3", "1.0"], 0, false, true) == None
  {
    var ws := ["1x5", "0.5", "3", "1.0"];
    assert !DecimalWord(ws[0], false);
    assert !RowAt(ws, 0, false, false) && !RowAt(ws, 0, false, true);
  }

  /** The example row is recognised as written and not with a literal point. */
  lemma ExampleRowRecognised()
    ensures RecogniseRow(" 1x5 0.5 3 1.0", true) == Some(Capture("1x5", "0.5"))
    ensures RecogniseRow(" 1x5 0.5 3 1.0", false) == None
  {
    ExampleRowWords();
    ExampleRowWindows();
    ExampleRowStrictWindows();
    assert FirstEligible(" 1x5 0.5 3 1.0") == 0;
  }

  /** A row whose first field has a letter where the point should be is recognised, and `float()` then raises. */
  lemma RowDotAcceptsNonNumber()
    ensures RecogniseRow(" 1x5 0.5 3 1.0", true) == Some(Capture("1x5", "0.5"))
    ensures ExtractLatency(" 1x5 0.5 3 1.0") == Err(BadFloat("1x5"))
  {
    ExampleRowRecognised();
    ExampleLatencyRefused();
    LatencyRefused(" 1x5 0.5 3 1.0", true, Capture("1x5", "0.5"));
  }

  /** `float("1x5")` raises. */
  lemma ExampleLatencyRefused()
    ensures Float("1x5") == None
  {
    FloatRefuses("1", 'x', "5");
    assert "1" + ['x'] + "5" == "1x5";
  }

  /** A recognised row whose latency `float()` refuses fails with that capture. */
  lemma LatencyRefused(line: string, dotAny: bool, c: Capture)
    requires RecogniseRow(line, dotAny) == Some(c) && Float(c.latency) == None
    ensures SampleOf(line, dotAny) == Err(BadFloat(c.latency))
  {
  }

  /** With the point escaped, the same row is simply not a histogram row. */
  lemma StrictSkipsNonNumber()
    ensures SampleOf(" 1x5 0.5 3 1.0", false) == Ok(None)
  {
    ExampleRowRecognised();
  }

  /** The example throughput line matches at its start, and only there. */
  lemma ExampleRateMatch()
    ensures RpsPosition("Requests/sec: 12k") == Some(0)
    ensures DigitsStart("Requests/sec: 12k", |RpsLabel|) == 14
  {
    var t := "Requests/sec: 12k";
    assert t[0..|RpsLabel|] == RpsLabel;
    assert t[|RpsLabel|..] == " 12k";
    assert SpaceRun(" 12k") == 1;
    assert RpsAt(t, 0);
    var r := RpsPosition(t).value;
    RpsAtLabel(t, r);
    assert r <= 4;
  }

  /** `.?` takes the letter after the digits, and `float()` then raises. */
  lemma RpsDotAcceptsNonNumber()
    ensures RpsValue("Requests/sec: 12k", true) == Err(BadFloat("12k"))
  {
    var t := "Requests/sec: 12k";
    ExampleRateMatch();
    assert t[14..] == "12k";
    assert DigitRun("12k") == 2;
    assert NumberPrefix("12k", true) == "12k";
    assert DigitRun("12k"[..2]) == 2;
    assert Float("12k") == None;
  }

  /** With `\.?` the capture stops at the digits. */
  lemma StrictRateReadsDigits()
    ensures RpsValue("Requests/sec: 12k", false) == Ok(Some(12.0))
  {
    var t := "Requests/sec: 12k";
    ExampleRateMatch();
    assert t[14..] == "12k";
    assert DigitRun("12k") == 2;
    assert NumberPrefix("12k", false) == "12";
    assert NatValue("12") == 12;
  }
}
