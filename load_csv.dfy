/**
 * The CSV loader: lines arrive already split into the fields the grammar
 * recognises, and the loader either stores every line as one row (numbers, or
 * category codes when a row is not fully numeric) or, transposed, stores every
 * line as one column, discovering step by step which field positions hold text
 * and must be mapped to category codes.
 */
module LoadCsv {

  /**
   * A recognised field: a number (with its text, used when the field has to be
   * mapped as a category) or a non-numeric string.
   */
  datatype Field = Num(value: real, text: string) | Str(str: string)

  /**
   * A line as the list grammar recognises it: its fields, in order. A line of
   * which the grammar recognises no field cannot be parsed.
   */
  type Line = seq<Field>

  datatype Option<T> = None | Some(value: T)

  /** The text a field is mapped by when it is stored as a category. */
  function Text(f: Field): string {
    match f
    case Num(_, t) => t
    case Str(s) => s
  }

  /**
   * A lone tab is mapped as the empty string; any other text as itself. So the
   * mapper is never asked for a lone tab.
   */
  function Clean(s: string): (r: string)
    ensures r != "\t"
    ensures s == "\t" ==> r == ""
    ensures s != "\t" ==> r == s
  {
    if s == "\t" then "" else s
  }

  // ---------------------------------------------------------------------
  // Non-transposed parsing: every line fills one row.
  // ---------------------------------------------------------------------

  /** The number of leading numeric fields: how far the numeric list pass gets. */
  function NumericPrefix(line: Line): (k: nat)
    ensures k <= |line|
    ensures forall j :: 0 <= j < k ==> line[j].Num?
    ensures k < |line| ==> line[k].Str?
  {
    if |line| == 0 || line[0].Str? then 0 else 1 + NumericPrefix(line[1..])
  }

  /**
   * Whether the numeric pass fills the row: then the row holds the numbers,
   * otherwise the line is re-read as categories.
   */
  predicate FillsRow(line: Line, nCols: nat) {
    NumericPrefix(line) == nCols
  }

  /** A line fails to parse when it needs the category pass and has no field. */
  predicate RowFails(line: Line, nCols: nat) {
    !FillsRow(line, nCols) && |line| == 0
  }

  /** The category code request the fallback pass makes for field `j` of row `row`. */
  function CategoryRequest(line: Line, row: nat, j: nat): (string, nat)
    requires j < |line|
  {
    (Clean(Text(line[j])), row)
  }

  /** The values the parse of `line` leaves in the first cells of row `row`. */
  function RowValues(line: Line, nCols: nat, row: nat, mapping: (string, nat) -> nat): (r: seq<real>)
    ensures FillsRow(line, nCols) ==> |r| == nCols && forall j :: 0 <= j < |r| ==> r[j] == line[j].value
    ensures !FillsRow(line, nCols) ==>
      |r| == |line| && forall j :: 0 <= j < |r| ==> r[j] == mapping(Clean(Text(line[j])), row) as real
  {
    if FillsRow(line, nCols) then seq(nCols, j requires 0 <= j < nCols => line[j].value)
    else seq(|line|, j requires 0 <= j < |line| => mapping(Clean(Text(line[j])), row) as real)
  }

  /**
   * Cell (r, j) of the matrix after the first `reach` lines were parsed into
   * a zero-filled matrix.
   */
  function RowCell(lines: seq<Line>, reach: nat, nCols: nat, mapping: (string, nat) -> nat, r: nat, j: nat): real {
    if r < reach && r < |lines| && j < |RowValues(lines[r], nCols, r, mapping)| then
      RowValues(lines[r], nCols, r, mapping)[j]
    else 0.0
  }

  /** The requests the category pass makes for every field of row `row`, in order. */
  function CategoryRequests(line: Line, row: nat): (r: seq<(string, nat)>)
    ensures |r| == |line| && forall j :: 0 <= j < |r| ==> r[j] == (Clean(Text(line[j])), row)
  {
    seq(|line|, j requires 0 <= j < |line| => CategoryRequest(line, row, j))
  }

  /** The category requests the parse of a whole row makes: none when the numbers fill it. */
  function RowRequests(line: Line, nCols: nat, row: nat): (r: seq<(string, nat)>)
    ensures FillsRow(line, nCols) ==> r == []
    ensures !FillsRow(line, nCols) ==> r == CategoryRequests(line, row)
  {
    if FillsRow(line, nCols) then [] else CategoryRequests(line, row)
  }

  /**
   * A row the numeric pass fills asks the mapper nothing; in any other row,
   * every stored value is the code the mapper returned for that field's
   * request, and the requests are made in the row's own dimension.
   */
  lemma RowCodesAreLogged(line: Line, nCols: nat, row: nat, mapping: (string, nat) -> nat)
    ensures FillsRow(line, nCols) ==> RowRequests(line, nCols, row) == []
    ensures !FillsRow(line, nCols) ==>
      |RowRequests(line, nCols, row)| == |RowValues(line, nCols, row, mapping)|
      && forall j :: 0 <= j < |RowRequests(line, nCols, row)| ==>
           RowRequests(line, nCols, row)[j].1 == row
           && RowValues(line, nCols, row, mapping)[j]
              == mapping(RowRequests(line, nCols, row)[j].0, RowRequests(line, nCols, row)[j].1) as real
  {
  }

  /** The mapper requests of the first `reach` rows, in order. */
  function RowsRequests(lines: seq<Line>, reach: nat, nCols: nat): seq<(string, nat)>
    requires reach <= |lines|
  {
    if reach == 0 then []
    else RowsRequests(lines, reach - 1, nCols) + RowRequests(lines[reach - 1], nCols, reach - 1)
  }

  /** Logging the requests of row `row` extends the requests of the rows before it. */
  lemma RowsRequestsStep(lines: seq<Line>, row: nat, nCols: nat, before: seq<(string, nat)>, after: seq<(string, nat)>)
    requires row < |lines|
    requires before == RowsRequests(lines, row, nCols)
    requires after == before + RowRequests(lines[row], nCols, row)
    ensures after == RowsRequests(lines, row + 1, nCols)
  {
  }

  /** The outcome of a whole parse. */
  datatype Status = Parsed | GaveUp | Failed(line: nat)

  /** The outcome of parsing every row from row `i` on: the first row that fails, if any. */
  function RowsStatus(lines: seq<Line>, nCols: nat, i: nat): Status
    requires i <= |lines|
    decreases |lines| - i
  {
    if i == |lines| then Parsed
    else if RowFails(lines[i], nCols) then Failed(i)
    else RowsStatus(lines, nCols, i + 1)
  }

  /**
   * A row-wise parse from row `i` never gives up: it fails at the first row
   * that cannot be parsed, and succeeds exactly when no row fails.
   */
  lemma {:induction false} RowsStatusMeaning(lines: seq<Line>, nCols: nat, i: nat)
    requires i <= |lines|
    ensures RowsStatus(lines, nCols, i) != GaveUp
    ensures RowsStatus(lines, nCols, i).Failed? ==>
      var f := RowsStatus(lines, nCols, i).line;
      i <= f < |lines| && RowFails(lines[f], nCols) && forall k :: i <= k < f ==> !RowFails(lines[k], nCols)
    ensures RowsStatus(lines, nCols, i) == Parsed <==> forall k :: i <= k < |lines| ==> !RowFails(lines[k], nCols)
    decreases |lines| - i
  {
    if i < |lines| && !RowFails(lines[i], nCols) {
      RowsStatusMeaning(lines, nCols, i + 1);
    }
  }

  /** The number of rows a parse reads: all, or up to the failing one. */
  function RowsReached(lines: seq<Line>, s: Status): nat {
    if s.Failed? && s.line <= |lines| then s.line else |lines|
  }

  /**
   * A row the numeric pass fills holds its numbers and asks the mapper for
   * nothing; any other parseable row holds one category code per field, each
   * the code the mapper gives for that field's text in that row's dimension.
   */
  lemma RowCellCases(lines: seq<Line>, nCols: nat, mapping: (string, nat) -> nat, r: nat, j: nat)
    requires r < |lines|
    ensures FillsRow(lines[r], nCols) && j < nCols ==>
      RowCell(lines, |lines|, nCols, mapping, r, j) == lines[r][j].value
    ensures !FillsRow(lines[r], nCols) && j < |lines[r]| ==>
      RowCell(lines, |lines|, nCols, mapping, r, j) == mapping(Clean(Text(lines[r][j])), r) as real
    ensures j >= nCols && j >= |lines[r]| ==> RowCell(lines, |lines|, nCols, mapping, r, j) == 0.0
  {
  }

  // ---------------------------------------------------------------------
  // Transposed parsing: every line fills one column.
  // ---------------------------------------------------------------------

  /** The text positions of `line` that are not yet known to hold categories. */
  function NewTextPositions(line: Line, mapCols: set<nat>): (r: set<nat>)
    ensures forall p: nat :: p in r <==> p < |line| && line[p].Str? && p !in mapCols
    ensures r !! mapCols && forall p :: p in r ==> p < |line|
  {
    set p: nat | p < |line| && line[p].Str? && p !in mapCols
  }

  /** How one pass over the lines ends. */
  datatype PassOutcome = Complete | Enlarged(line: nat) | Unparseable(line: nat)

  /**
   * The outcome of a pass from line `i` on with the known category positions
   * `mapCols`: it stops at the first line that cannot be parsed or that shows
   * text at a new position, and completes when no line does.
   */
  function PassFrom(lines: seq<Line>, mapCols: set<nat>, i: nat): (r: PassOutcome)
    requires i <= |lines|
    ensures r.Enlarged? ==>
      i <= r.line < |lines| && |lines[r.line]| > 0
      && NewTextPositions(lines[r.line], mapCols) != {}
    ensures r.Unparseable? ==> i <= r.line < |lines| && |lines[r.line]| == 0
    ensures !r.Complete? ==>
      forall c :: i <= c < r.line ==> |lines[c]| > 0 && NewTextPositions(lines[c], mapCols) == {}
    ensures r.Complete? ==>
      forall c :: i <= c < |lines| ==> |lines[c]| > 0 && NewTextPositions(lines[c], mapCols) == {}
    decreases |lines| - i
  {
    if i == |lines| then Complete
    else if |lines[i]| == 0 then Unparseable(i)
    else if NewTextPositions(lines[i], mapCols) != {} then Enlarged(i)
    else PassFrom(lines, mapCols, i + 1)
  }

  /** The number of lines a pass reads. */
  function Reach(lines: seq<Line>, o: PassOutcome): nat {
    if o.Complete? then |lines| else o.line + 1
  }

  /** The category positions after a pass: the enlarging line adds its new ones. */
  function AfterPass(lines: seq<Line>, mapCols: set<nat>, o: PassOutcome): set<nat>
    requires o.Enlarged? ==> o.line < |lines|
  {
    if o.Enlarged? then mapCols + NewTextPositions(lines[o.line], mapCols) else mapCols
  }

  /**
   * What a pass stores for field `f` at position `p`: a number unchanged, or
   * the category code of its text when `p` is a category position; a string
   * its code at a category position, and nothing elsewhere.
   */
  function CellValue(f: Field, p: nat, mapCols: set<nat>, mapping: (string, nat) -> nat,
                     toString: real -> string): (r: Option<real>)
    ensures f.Num? && p !in mapCols ==> r == Some(f.value)
    ensures f.Num? && p in mapCols ==> r == Some(mapping(toString(f.value), p) as real)
    ensures f.Str? && p in mapCols ==> r == Some(mapping(Clean(f.str), p) as real)
    ensures f.Str? && p !in mapCols ==> r == None
    ensures r.None? <==> f.Str? && p !in mapCols
    ensures p in mapCols ==> r.Some? && r.value >= 0.0 && r.value.Floor as real == r.value
  {
    match f
    case Num(v, _) => if p in mapCols then Some(mapping(toString(v), p) as real) else Some(v)
    case Str(s) => if p in mapCols then Some(mapping(Clean(s), p) as real) else None
  }

  /** The cell (p, c) after a pass that read the first `reach` lines over `prior`. */
  function PassCell(lines: seq<Line>, mapCols: set<nat>, reach: nat, mapping: (string, nat) -> nat,
                    toString: real -> string, p: nat, c: nat, prior: real): real
  {
    if c < reach && c < |lines| && p < |lines[c]| && CellValue(lines[c][p], p, mapCols, mapping, toString).Some? then
      CellValue(lines[c][p], p, mapCols, mapping, toString).value
    else prior
  }

  /** The mapper request a pass makes for field `f` at position `p`, if any. */
  function FieldRequests(f: Field, p: nat, mapCols: set<nat>, toString: real -> string): (r: seq<(string, nat)>)
    ensures p !in mapCols ==> r == []
    ensures p in mapCols ==> r == [(if f.Num? then toString(f.value) else Clean(f.str), p)]
  {
    if p !in mapCols then []
    else match f
      case Num(v, _) => [(toString(v), p)]
      case Str(s) => [(Clean(s), p)]
  }

  /**
   * A field asks the mapper exactly when it is stored as a code, at most once,
   * in the dimension of its position, and the stored value is the code the
   * mapper returns for that request.
   */
  lemma StoredCodeIsLogged(f: Field, p: nat, mapCols: set<nat>, mapping: (string, nat) -> nat,
                           toString: real -> string)
    ensures |FieldRequests(f, p, mapCols, toString)| <= 1
    ensures FieldRequests(f, p, mapCols, toString) != [] <==> p in mapCols
    ensures p in mapCols ==>
      FieldRequests(f, p, mapCols, toString)[0].1 == p
      && CellValue(f, p, mapCols, mapping, toString)
         == Some(mapping(FieldRequests(f, p, mapCols, toString)[0].0, p) as real)
  {
  }

  /** The mapper requests for the first `n` fields of a line, in order. */
  function LineRequests(line: Line, n: nat, mapCols: set<nat>, toString: real -> string): seq<(string, nat)>
    requires n <= |line|
  {
    if n == 0 then []
    else LineRequests(line, n - 1, mapCols, toString) + FieldRequests(line[n - 1], n - 1, mapCols, toString)
  }

  /**
   * Logging the request for field `p` extends the requests of the fields
   * before it; only whether `p` is a category position matters.
   */
  lemma FieldRequestsStep(line: Line, p: nat, mapCols: set<nat>, current: set<nat>, toString: real -> string,
                          base: seq<(string, nat)>, before: seq<(string, nat)>, after: seq<(string, nat)>)
    requires p < |line| && (p in current <==> p in mapCols)
    requires before == base + LineRequests(line, p, mapCols, toString)
    requires after == before + FieldRequests(line[p], p, current, toString)
    ensures after == base + LineRequests(line, p + 1, mapCols, toString)
  {
    assert FieldRequests(line[p], p, current, toString) == FieldRequests(line[p], p, mapCols, toString);
  }

  /** The mapper requests for the first `n` lines of a pass, in order. */
  function PassRequests(lines: seq<Line>, n: nat, mapCols: set<nat>, toString: real -> string): seq<(string, nat)>
    requires n <= |lines|
  {
    if n == 0 then []
    else
      PassRequests(lines, n - 1, mapCols, toString)
      + LineRequests(lines[n - 1], |lines[n - 1]|, mapCols, toString)
  }

  /** Logging the requests of line `n` extends the requests of the lines before it. */
  lemma LineRequestsStep(lines: seq<Line>, n: nat, mapCols: set<nat>, toString: real -> string,
                         base: seq<(string, nat)>, before: seq<(string, nat)>, after: seq<(string, nat)>)
    requires n < |lines|
    requires before == base + PassRequests(lines, n, mapCols, toString)
    requires after == before + LineRequests(lines[n], |lines[n]|, mapCols, toString)
    ensures after == base + PassRequests(lines, n + 1, mapCols, toString)
  {
  }

  /** Some line has text at position `p`. */
  ghost predicate IsTextPosition(lines: seq<Line>, p: nat) {
    exists c :: 0 <= c < |lines| && p < |lines[c]| && lines[c][p].Str?
  }

  /** Every field of every line sits below position `n`. */
  predicate Narrow(lines: seq<Line>, n: nat) {
    forall c :: 0 <= c < |lines| ==> |lines[c]| <= n
  }

  /**
   * The whole retry loop from a pass with `mapCols` after `parseTime` failed
   * passes: a pass that enlarges the positions is repeated with the larger
   * set, until a pass completes or fails, or `limit` failed passes were made.
   * It returns the outcome and the positions the last pass started from.
   */
  function Retry(lines: seq<Line>, n: nat, mapCols: set<nat>, parseTime: nat, limit: nat): (r: (Status, set<nat>))
    requires Narrow(lines, n)
    requires forall p :: p in mapCols ==> p < n
    decreases n - |mapCols|
  {
    var o := PassFrom(lines, mapCols, 0);
    match o
    case Complete => (Parsed, mapCols)
    case Unparseable(c) => (Failed(c), mapCols)
    case Enlarged(k) =>
      var next := AfterPass(lines, mapCols, o);
      if parseTime + 1 == limit then (GaveUp, next)
      else
        BoundedGrowth(lines, n, mapCols, k);
        Retry(lines, n, next, parseTime + 1, limit)
  }

  /** A set of positions below `n` has at most `n` elements. */
  lemma {:induction false} BoundedCard(s: set<nat>, n: nat)
    requires forall p :: p in s ==> p < n
    ensures |s| <= n
  {
    if n > 0 {
      var smaller := s - {n - 1};
      BoundedCard(smaller, n - 1);
      assert s <= smaller + {n - 1};
    }
  }

  /** The enlarging pass adds positions, all below the width bound. */
  lemma BoundedGrowth(lines: seq<Line>, n: nat, mapCols: set<nat>, k: nat)
    requires Narrow(lines, n) && k < |lines|
    requires forall p :: p in mapCols ==> p < n
    requires NewTextPositions(lines[k], mapCols) != {}
    ensures forall p :: p in mapCols + NewTextPositions(lines[k], mapCols) ==> p < n
    ensures |mapCols| < |mapCols + NewTextPositions(lines[k], mapCols)| <= n
  {
    var next := mapCols + NewTextPositions(lines[k], mapCols);
    var p :| p in NewTextPositions(lines[k], mapCols);
    assert mapCols < next;
    BoundedCard(next, n);
  }

  /**
   * Retrying enough times never gives up: with more tries left than positions
   * left to discover, the retry loop ends in a parse or a failure.
   */
  lemma {:induction false} RetryWithRoomNeverGivesUp(lines: seq<Line>, n: nat, mapCols: set<nat>,
                                                     parseTime: nat, limit: nat)
    requires Narrow(lines, n)
    requires forall p :: p in mapCols ==> p < n
    requires parseTime + (n - |mapCols|) < limit
    ensures Retry(lines, n, mapCols, parseTime, limit).0 != GaveUp
    decreases n - |mapCols|
  {
    BoundedCard(mapCols, n);
    var o := PassFrom(lines, mapCols, 0);
    if o.Enlarged? {
      BoundedGrowth(lines, n, mapCols, o.line);
      RetryWithRoomNeverGivesUp(lines, n, AfterPass(lines, mapCols, o), parseTime + 1, limit);
    }
  }

  /** With `n + 1` tries the retry loop from no known positions never gives up. */
  lemma CorrectedRetryNeverGivesUp(lines: seq<Line>, n: nat)
    requires Narrow(lines, n)
    ensures Retry(lines, n, {}, 0, n + 1).0 != GaveUp
  {
    RetryWithRoomNeverGivesUp(lines, n, {}, 0, n + 1);
  }

  /**
   * With only `n` tries, a one-column file whose single field is text gives
   * up: the first pass discovers the category position and the loop stops
   * before the pass that would store the field's code. One more try parses it.
   */
  lemma AsWrittenRetryGivesUp()
    ensures Retry([[Str("a")]], 1, {}, 0, 1).0 == GaveUp
    ensures Retry([[Str("a")]], 1, {}, 0, 2) == (Parsed, {0})
  {
    var lines: seq<Line> := [[Str("a")]];
    assert 0 in NewTextPositions(lines[0], {});
    assert NewTextPositions(lines[0], {}) == {0};
    assert NewTextPositions(lines[0], {0}) == {};
    assert PassFrom(lines, {}, 0) == Enlarged(0);
    assert AfterPass(lines, {}, Enlarged(0)) == {0};
    assert PassFrom(lines, {0}, 1) == Complete;
    assert PassFrom(lines, {0}, 0) == Complete;
    assert Retry(lines, 1, {0}, 1, 2) == (Parsed, {0});
  }

  /** A pass that completes has seen every text position of every line. */
  lemma {:induction false} CompleteCoversText(lines: seq<Line>, mapCols: set<nat>, i: nat)
    requires i <= |lines| && PassFrom(lines, mapCols, i) == Complete
    ensures forall c, p :: i <= c < |lines| && 0 <= p < |lines[c]| && lines[c][p].Str? ==> p in mapCols
    decreases |lines| - i
  {
    if i < |lines| {
      CompleteCoversText(lines, mapCols, i + 1);
      assert NewTextPositions(lines[i], mapCols) == {};
    }
  }

  /**
   * What a successful transposed load stores at cell (p, c): for a field of
   * line c, its category code when some line has text at position p, and the
   * number itself otherwise; zero outside the fields.
   */
  ghost function TransposeCell(lines: seq<Line>, mapping: (string, nat) -> nat, toString: real -> string,
                               p: nat, c: nat): real
  {
    if c < |lines| && p < |lines[c]| then
      match lines[c][p]
      case Num(v, _) => if IsTextPosition(lines, p) then mapping(toString(v), p) as real else v
      case Str(s) => mapping(Clean(s), p) as real
    else 0.0
  }

  /**
   * A retry that parses ends on exactly the text positions of the file,
   * provided it started from text positions only.
   */
  lemma {:induction false} ParsedPositionsAreText(lines: seq<Line>, n: nat, mapCols: set<nat>,
                                                  parseTime: nat, limit: nat)
    requires Narrow(lines, n)
    requires forall p :: p in mapCols ==> p < n && IsTextPosition(lines, p)
    requires Retry(lines, n, mapCols, parseTime, limit).0 == Parsed
    ensures forall p :: p in Retry(lines, n, mapCols, parseTime, limit).1 <==> IsTextPosition(lines, p)
    decreases n - |mapCols|
  {
    var o := PassFrom(lines, mapCols, 0);
    if o.Complete? {
      CompleteCoversText(lines, mapCols, 0);
    } else {
      var next := AfterPass(lines, mapCols, o);
      BoundedGrowth(lines, n, mapCols, o.line);
      assert forall p :: p in next ==> IsTextPosition(lines, p);
      ParsedPositionsAreText(lines, n, next, parseTime + 1, limit);
    }
  }

  /**
   * Removing the fields of a longer prefix adds the field at its end, when it
   * is text at a new position.
   */
  lemma NewTextStep(line: Line, p: nat, mapCols: set<nat>)
    requires p < |line|
    ensures NewTextPositions(line[..p + 1], mapCols)
         == NewTextPositions(line[..p], mapCols) + (if line[p].Str? && p !in mapCols then {p} else {})
  {
    var a := NewTextPositions(line[..p + 1], mapCols);
    var b := NewTextPositions(line[..p], mapCols) + (if line[p].Str? && p !in mapCols then {p} else {});
    forall q | q in a ensures q in b {
      assert line[..p + 1][q] == line[q];
    }
    forall q | q in b ensures q in a {
      assert line[..p + 1][q] == line[q];
    }
  }

  /** Adding positions disjoint from a set grows it exactly when some are added. */
  lemma DisjointGrowth(mapCols: set<nat>, added: set<nat>)
    requires mapCols !! added
    ensures |mapCols + added| > |mapCols| <==> added != {}
  {
    assert |mapCols + added| == |mapCols| + |added|;
  }

  /**
   * After a pass that completes with exactly the text positions of the file,
   * over a matrix zero outside the fields, every cell holds what a successful
   * transposed load promises.
   */
  lemma CompletePassCell(lines: seq<Line>, mapCols: set<nat>, mapping: (string, nat) -> nat,
                         toString: real -> string, p: nat, c: nat, prior: real)
    requires PassFrom(lines, mapCols, 0) == Complete
    requires forall q :: q in mapCols <==> IsTextPosition(lines, q)
    requires !(c < |lines| && p < |lines[c]|) ==> prior == 0.0
    ensures PassCell(lines, mapCols, |lines|, mapping, toString, p, c, prior)
         == TransposeCell(lines, mapping, toString, p, c)
  {
    if c < |lines| && p < |lines[c]| {
      CompleteCoversText(lines, mapCols, 0);
    }
  }

  /** A pass that reads one line more writes that line's column and nothing else. */
  lemma PassCellStep(lines: seq<Line>, mapCols: set<nat>, col: nat, mapping: (string, nat) -> nat,
                     toString: real -> string, p: nat, c: nat, prior: real)
    requires col < |lines|
    ensures PassCell(lines, mapCols, col + 1, mapping, toString, p, c, prior)
         == if c == col && p < |lines[col]| && CellValue(lines[col][p], p, mapCols, mapping, toString).Some?
            then CellValue(lines[col][p], p, mapCols, mapping, toString).value
            else PassCell(lines, mapCols, col, mapping, toString, p, c, prior)
  {
  }

  /** Every cell (r, j) holds what parsing the first `reach` rows leaves there. */
  ghost predicate RowsHold(cells: array2<real>, lines: seq<Line>, reach: nat, nCols: nat,
                           mapping: (string, nat) -> nat)
    reads cells
  {
    forall r, j :: 0 <= r < cells.Length0 && 0 <= j < cells.Length1 ==>
      cells[r, j] == RowCell(lines, reach, nCols, mapping, r, j)
  }

  /** Every cell (p, c) holds what a successful transposed load promises. */
  ghost predicate TransposeHolds(cells: array2<real>, lines: seq<Line>, mapping: (string, nat) -> nat,
                                 toString: real -> string)
    reads cells
  {
    forall p, c :: 0 <= p < cells.Length0 && 0 <= c < cells.Length1 ==>
      cells[p, c] == TransposeCell(lines, mapping, toString, p, c)
  }

  /** Every cell outside the fields of the lines, one line per column, is zero. */
  ghost predicate ZeroOutsideFields(cells: array2<real>, lines: seq<Line>)
    reads cells
  {
    forall p, c :: 0 <= p < cells.Length0 && 0 <= c < cells.Length1 && !(c < |lines| && p < |lines[c]|) ==>
      cells[p, c] == 0.0
  }

  /**
   * Cell (p, c) is one that no pass with category positions `mapCols` writes:
   * it lies outside the fields, or holds text at a position not yet known.
   */
  predicate Unwritten(lines: seq<Line>, mapCols: set<nat>, p: nat, c: nat) {
    !(c < |lines| && p < |lines[c]|) || (lines[c][p].Str? && p !in mapCols)
  }

  /** Every cell that no pass with `mapCols` writes is zero. */
  ghost predicate ZeroUnwritten(cells: array2<real>, lines: seq<Line>, mapCols: set<nat>)
    reads cells
  {
    forall p, c :: 0 <= p < cells.Length0 && 0 <= c < cells.Length1 && Unwritten(lines, mapCols, p, c) ==>
      cells[p, c] == 0.0
  }

  /** An all-zero matrix is zero where no pass writes. */
  lemma ZeroMatrixUnwritten(cells: array2<real>, lines: seq<Line>, mapCols: set<nat>)
    requires forall i, j :: 0 <= i < cells.Length0 && 0 <= j < cells.Length1 ==> cells[i, j] == 0.0
    ensures ZeroUnwritten(cells, lines, mapCols)
  {
  }

  /** Zero where no pass writes implies zero outside the fields. */
  lemma UnwrittenOutsideFields(cells: array2<real>, lines: seq<Line>, mapCols: set<nat>)
    requires ZeroUnwritten(cells, lines, mapCols)
    ensures ZeroOutsideFields(cells, lines)
  {
    forall p, c | 0 <= p < cells.Length0 && 0 <= c < cells.Length1 && !(c < |lines| && p < |lines[c]|)
      ensures cells[p, c] == 0.0
    {
      assert Unwritten(lines, mapCols, p, c);
    }
  }

  /** Knowing more category positions leaves fewer cells unwritten. */
  lemma UnwrittenShrinks(cells: array2<real>, lines: seq<Line>, mapCols: set<nat>, larger: set<nat>)
    requires ZeroUnwritten(cells, lines, mapCols) && mapCols <= larger
    ensures ZeroUnwritten(cells, lines, larger)
  {
    forall p, c | 0 <= p < cells.Length0 && 0 <= c < cells.Length1 && Unwritten(lines, larger, p, c)
      ensures cells[p, c] == 0.0
    {
      assert Unwritten(lines, mapCols, p, c);
    }
  }

  /** The contents of a matrix, row by row. */
  ghost function Contents(cells: array2<real>): (r: seq<seq<real>>)
    reads cells
    ensures |r| == cells.Length0 && forall p :: 0 <= p < |r| ==> |r[p]| == cells.Length1
  {
    seq(cells.Length0, p requires 0 <= p < cells.Length0 reads cells =>
      seq(cells.Length1, c requires 0 <= c < cells.Length1 reads cells => cells[p, c]))
  }

  /** Every cell holds what a pass that read `reach` lines leaves over `prior`. */
  ghost predicate PassWritten(cells: array2<real>, lines: seq<Line>, mapCols: set<nat>, reach: nat,
                              mapping: (string, nat) -> nat, toString: real -> string, prior: seq<seq<real>>)
    reads cells
  {
    && |prior| == cells.Length0
    && (forall p :: 0 <= p < |prior| ==> |prior[p]| == cells.Length1)
    && forall p, c :: 0 <= p < cells.Length0 && 0 <= c < cells.Length1 ==>
         cells[p, c] == PassCell(lines, mapCols, reach, mapping, toString, p, c, prior[p][c])
  }

  /** Every entry of a snapshot that no pass with `mapCols` writes is zero. */
  ghost predicate ZeroOutside(prior: seq<seq<real>>, lines: seq<Line>, mapCols: set<nat>) {
    forall p, c {:trigger prior[p][c]} ::
      0 <= p < |prior| && 0 <= c < |prior[p]| && Unwritten(lines, mapCols, p, c) ==> prior[p][c] == 0.0
  }

  /** A snapshot of a matrix zero where no pass writes is zero there too. */
  lemma ZerosInSnapshot(cells: array2<real>, lines: seq<Line>, mapCols: set<nat>)
    requires ZeroUnwritten(cells, lines, mapCols)
    ensures ZeroOutside(Contents(cells), lines, mapCols)
  {
  }

  /**
   * A pass writes neither outside the fields nor text at an unknown position,
   * so a matrix zero at those cells stays so.
   */
  lemma PassKeepsZeros(cells: array2<real>, lines: seq<Line>, mapCols: set<nat>, reach: nat,
                       mapping: (string, nat) -> nat, toString: real -> string, prior: seq<seq<real>>)
    requires PassWritten(cells, lines, mapCols, reach, mapping, toString, prior)
    requires ZeroOutside(prior, lines, mapCols)
    ensures ZeroUnwritten(cells, lines, mapCols)
  {
    forall p, c | 0 <= p < cells.Length0 && 0 <= c < cells.Length1 && Unwritten(lines, mapCols, p, c)
      ensures cells[p, c] == 0.0
    {
      assert p < |prior| && c < |prior[p]|;
      assert prior[p][c] == 0.0;
      assert cells[p, c] == PassCell(lines, mapCols, reach, mapping, toString, p, c, prior[p][c]);
    }
  }

  /**
   * A pass that completes with exactly the text positions of the file, over
   * a matrix zero outside the fields, leaves what a successful load promises.
   */
  lemma CompletePassHolds(cells: array2<real>, lines: seq<Line>, mapCols: set<nat>,
                          mapping: (string, nat) -> nat, toString: real -> string, prior: seq<seq<real>>)
    requires PassFrom(lines, mapCols, 0) == Complete
    requires forall q :: q in mapCols <==> IsTextPosition(lines, q)
    requires PassWritten(cells, lines, mapCols, |lines|, mapping, toString, prior)
    requires ZeroOutside(prior, lines, mapCols)
    ensures TransposeHolds(cells, lines, mapping, toString)
  {
    forall p, c | 0 <= p < cells.Length0 && 0 <= c < cells.Length1
      ensures cells[p, c] == TransposeCell(lines, mapping, toString, p, c)
    {
      assert p < |prior| && c < |prior[p]|;
      assert !(c < |lines| && p < |lines[c]|) ==> Unwritten(lines, mapCols, p, c) && prior[p][c] == 0.0;
      CompletePassCell(lines, mapCols, mapping, toString, p, c, prior[p][c]);
    }
  }

  /** Some text field of some line is still zero in its cell: it was never stored. */
  ghost predicate SomeTextUnstored(cells: array2<real>, lines: seq<Line>)
    reads cells
  {
    exists p, c ::
      0 <= p < cells.Length0 && 0 <= c < cells.Length1
      && c < |lines| && p < |lines[c]| && lines[c][p].Str? && cells[p, c] == 0.0
  }

  /** Every line has at least one field. */
  predicate AllLinesHaveFields(lines: seq<Line>) {
    forall c :: 0 <= c < |lines| ==> |lines[c]| > 0
  }

  /**
   * After a pass that ends early at line `k`, over a matrix zero where no pass
   * writes, the text at a new position of line `k` was not stored.
   */
  lemma UnstoredTextField(cells: array2<real>, lines: seq<Line>, mapCols: set<nat>, k: nat)
    requires ZeroUnwritten(cells, lines, mapCols)
    requires k < |lines| <= cells.Length1 && Narrow(lines, cells.Length0)
    requires NewTextPositions(lines[k], mapCols) != {}
    ensures SomeTextUnstored(cells, lines)
  {
    var p :| p in NewTextPositions(lines[k], mapCols);
    assert Unwritten(lines, mapCols, p, k);
    assert cells[p, k] == 0.0;
  }

  /** A dense matrix whose storage the loader resizes. */
  class Matrix {
    var cells: array2<real>

    constructor ()
      ensures fresh(cells) && cells.Length0 == 0 && cells.Length1 == 0
    {
      cells := new real[0, 0];
    }

    /** Resizes to `rows` by `cols`; the new storage is taken to read as zeros. */
    method SetSize(rows: nat, cols: nat)
      modifies this
      ensures fresh(cells) && cells.Length0 == rows && cells.Length1 == cols
      ensures forall i, j :: 0 <= i < rows && 0 <= j < cols ==> cells[i, j] == 0.0
    {
      cells := new real[rows, cols]((_, _) => 0.0);
    }
  }

  /**
   * The category mapper: the codes it hands out (`mapping`, left abstract),
   * its dimensionality and every request made of it since it was last reset.
   */
  class DatasetMapper {
    const mapping: (string, nat) -> nat
    var dimensionality: nat
    var requests: seq<(string, nat)>

    constructor (mapping: (string, nat) -> nat, dimensionality: nat)
      ensures this.mapping == mapping && this.dimensionality == dimensionality && requests == []
    {
      this.mapping := mapping;
      this.dimensionality := dimensionality;
      requests := [];
    }

    /** Replaces the mapper by a fresh one of the given dimensionality. */
    method Reset(dimensionality: nat)
      modifies this
      ensures this.dimensionality == dimensionality && requests == []
    {
      this.dimensionality := dimensionality;
      requests := [];
    }

    /** The code of `s` in dimension `dimension`; the request is logged. */
    method MapString(s: string, dimension: nat) returns (code: nat)
      modifies this
      ensures code == mapping(s, dimension)
      ensures requests == old(requests) + [(s, dimension)] && dimensionality == old(dimensionality)
    {
      code := mapping(s, dimension);
      requests := requests + [(s, dimension)];
    }
  }

  /** The numeric pass over a line: its first `k` numbers go to row `row`. */
  method WriteNumbers(cells: array2<real>, row: nat, line: Line, k: nat)
    requires k <= |line| && forall j :: 0 <= j < k ==> line[j].Num?
    requires row < cells.Length0 && k <= cells.Length1
    modifies cells
    ensures forall r, j :: 0 <= r < cells.Length0 && 0 <= j < cells.Length1 ==>
      cells[r, j] == if r == row && j < k then line[j].value else old(cells[r, j])
  {
    var col := 0;
    while col < k
      invariant col <= k
      invariant forall r, j :: 0 <= r < cells.Length0 && 0 <= j < cells.Length1 ==>
        cells[r, j] == if r == row && j < col then line[j].value else old(cells[r, j])
    {
      cells[row, col] := line[col].value;
      col := col + 1;
    }
  }

  /** The category pass over a line: every field's code goes to row `row`. */
  method WriteCategories(cells: array2<real>, row: nat, line: Line, mapper: DatasetMapper)
    requires row < cells.Length0 && |line| <= cells.Length1
    modifies cells, mapper
    ensures forall r, j :: 0 <= r < cells.Length0 && 0 <= j < cells.Length1 ==>
      cells[r, j] == if r == row && j < |line| then mapper.mapping(Clean(Text(line[j])), row) as real
                     else old(cells[r, j])
    ensures mapper.requests == old(mapper.requests) + CategoryRequests(line, row)
    ensures mapper.dimensionality == old(mapper.dimensionality)
  {
    var col := 0;
    while col < |line|
      invariant col <= |line|
      invariant forall r, j :: 0 <= r < cells.Length0 && 0 <= j < cells.Length1 ==>
        cells[r, j] == if r == row && j < col then mapper.mapping(Clean(Text(line[j])), row) as real
                       else old(cells[r, j])
      invariant mapper.requests == old(mapper.requests) + CategoryRequests(line, row)[..col]
      invariant mapper.dimensionality == old(mapper.dimensionality)
    {
      var str := Text(line[col]);
      if str == "\t" {
        str := "";
      }
      var code := mapper.MapString(str, row);
      cells[row, col] := code as real;
      assert CategoryRequests(line, row)[..col + 1] == CategoryRequests(line, row)[..col] + [(str, row)];
      col := col + 1;
    }
    assert CategoryRequests(line, row)[..|line|] == CategoryRequests(line, row);
  }

  /**
   * One line of a row-wise parse, stored as row `row`: the numeric pass, then,
   * when the numbers do not fill the row, the category pass, which fails on a
   * line with no field.
   */
  method ParseRow(cells: array2<real>, lines: seq<Line>, row: nat, mapper: DatasetMapper) returns (canParse: bool)
    requires row < |lines| && row < cells.Length0 && |lines[row]| <= cells.Length1
    requires RowsHold(cells, lines, row, cells.Length1, mapper.mapping)
    modifies cells, mapper
    ensures canParse == !RowFails(lines[row], cells.Length1)
    ensures RowsHold(cells, lines, if canParse then row + 1 else row, cells.Length1, mapper.mapping)
    ensures mapper.requests
         == old(mapper.requests) + (if canParse then RowRequests(lines[row], cells.Length1, row) else [])
    ensures mapper.dimensionality == old(mapper.dimensionality)
  {
    var line := lines[row];
    var col := NumericPrefix(line);
    WriteNumbers(cells, row, line, col);
    canParse := true;
    if col != cells.Length1 {
      col := 0;
      canParse := |line| > 0;
      if !canParse {
        return;
      }
      WriteCategories(cells, row, line, mapper);
    }
  }

  /**
   * One field of a transposed pass, at position `progress` (row `row`) of
   * column `col`: a category position gets the code of the field's text, a
   * number elsewhere is stored unchanged, and text elsewhere is reported as a
   * new category position.
   */
  method StoreField(cells: array2<real>, row: nat, col: nat, f: Field, progress: nat, mapCols: set<nat>,
                    mapper: DatasetMapper, toString: real -> string) returns (insert: bool)
    requires row < cells.Length0 && col < cells.Length1 && row == progress
    modifies cells, mapper
    ensures insert <==> f.Str? && progress !in mapCols
    ensures forall p, c :: 0 <= p < cells.Length0 && 0 <= c < cells.Length1 ==>
      cells[p, c] == if p == row && c == col && CellValue(f, progress, mapCols, mapper.mapping, toString).Some?
                     then CellValue(f, progress, mapCols, mapper.mapping, toString).value
                     else old(cells[p, c])
    ensures mapper.requests == old(mapper.requests) + FieldRequests(f, progress, mapCols, toString)
    ensures mapper.dimensionality == old(mapper.dimensionality)
  {
    insert := false;
    match f {
      case Num(v, _) =>
        if progress in mapCols {
          var code := mapper.MapString(toString(v), progress);
          cells[row, col] := code as real;
        } else {
          cells[row, col] := v;
        }
      case Str(s) =>
        if progress in mapCols {
          var str := s;
          if str == "\t" {
            str := "";
          }
          var code := mapper.MapString(str, progress);
          cells[row, col] := code as real;
        } else {
          insert := true;
        }
    }
  }

  /**
   * One line of a transposed pass, stored as column `col`: numbers are stored
   * unchanged, or as codes at category positions; text is stored as its code
   * at a category position, and elsewhere makes its position one.
   */
  method ParseColumn(cells: array2<real>, col: nat, line: Line, mapCols: set<nat>,
                     mapper: DatasetMapper, toString: real -> string) returns (mapColsOut: set<nat>)
    requires col < cells.Length1 && |line| <= cells.Length0
    modifies cells, mapper
    ensures mapColsOut == mapCols + NewTextPositions(line, mapCols)
    ensures mapper.requests == old(mapper.requests) + LineRequests(line, |line|, mapCols, toString)
    ensures mapper.dimensionality == old(mapper.dimensionality)
    ensures forall p, c :: 0 <= p < cells.Length0 && 0 <= c < cells.Length1 ==>
      cells[p, c] == if c == col && p < |line| && CellValue(line[p], p, mapCols, mapper.mapping, toString).Some?
                     then CellValue(line[p], p, mapCols, mapper.mapping, toString).value
                     else old(cells[p, c])
  {
    mapColsOut := mapCols;
    var row := 0;
    var progress := 0;
    while progress < |line|
      invariant progress <= |line| && row == progress
      invariant mapColsOut == mapCols + NewTextPositions(line[..progress], mapCols)
      invariant mapper.requests == old(mapper.requests) + LineRequests(line, progress, mapCols, toString)
      invariant mapper.dimensionality == old(mapper.dimensionality)
      invariant forall p, c :: 0 <= p < cells.Length0 && 0 <= c < cells.Length1 ==>
        cells[p, c] == if c == col && p < progress && CellValue(line[p], p, mapCols, mapper.mapping, toString).Some?
                       then CellValue(line[p], p, mapCols, mapper.mapping, toString).value
                       else old(cells[p, c])
      decreases |line| - progress
    {
      NewTextStep(line, progress, mapCols);
      assert progress in mapColsOut <==> progress in mapCols;
      ghost var value := CellValue(line[progress], progress, mapCols, mapper.mapping, toString);
      ghost var before := mapper.requests;
      var insert := StoreField(cells, row, col, line[progress], progress, mapColsOut, mapper, toString);
      FieldRequestsStep(line, progress, mapCols, mapColsOut, toString, old(mapper.requests), before, mapper.requests);
      assert CellValue(line[progress], progress, mapColsOut, mapper.mapping, toString) == value;
      if insert {
        mapColsOut := mapColsOut + {progress};
      }
      assert value.Some? ==> cells[row, col] == value.value;
      progress := progress + 1;
      row := row + 1;
    }
    assert line[..|line|] == line;
  }

  /**
   * Line `col` of a pass, stored as column `col` after the lines before it.
   * The pass stops here, with its outcome, when the line has no field or
   * shows text at a new position; otherwise it goes on with the same positions.
   */
  method PassLine(cells: array2<real>, lines: seq<Line>, col: nat, mapCols: set<nat>,
                  mapper: DatasetMapper, toString: real -> string,
                  ghost prior: seq<seq<real>>, ghost base: seq<(string, nat)>)
    returns (stop: bool, outcome: PassOutcome, mapColsOut: set<nat>)
    requires col < |lines| && col < cells.Length1 && |lines[col]| <= cells.Length0
    requires PassWritten(cells, lines, mapCols, col, mapper.mapping, toString, prior)
    requires mapper.requests == base + PassRequests(lines, col, mapCols, toString)
    modifies cells, mapper
    ensures stop ==> outcome == PassFrom(lines, mapCols, col) && Reach(lines, outcome) == col + 1
    ensures stop ==> mapColsOut == AfterPass(lines, mapCols, outcome)
    ensures !stop ==> PassFrom(lines, mapCols, col) == PassFrom(lines, mapCols, col + 1) && mapColsOut == mapCols
    ensures PassWritten(cells, lines, mapCols, col + 1, mapper.mapping, toString, prior)
    ensures mapper.requests == base + PassRequests(lines, col + 1, mapCols, toString)
    ensures mapper.dimensionality == old(mapper.dimensionality)
  {
    var oldSize := |mapCols|;
    mapColsOut := ParseColumn(cells, col, lines[col], mapCols, mapper, toString);
    LineRequestsStep(lines, col, mapCols, toString, base, old(mapper.requests), mapper.requests);
    forall p, c | 0 <= p < cells.Length0 && 0 <= c < cells.Length1
      ensures cells[p, c] == PassCell(lines, mapCols, col + 1, mapper.mapping, toString, p, c, prior[p][c])
    {
      PassCellStep(lines, mapCols, col, mapper.mapping, toString, p, c, prior[p][c]);
    }
    stop := true;
    var canParse := |lines[col]| > 0;
    if !canParse {
      assert NewTextPositions(lines[col], mapCols) == {};
      outcome := Unparseable(col);
      return;
    }
    DisjointGrowth(mapCols, NewTextPositions(lines[col], mapCols));
    if |mapColsOut| > oldSize {
      outcome := Enlarged(col);
      return;
    }
    stop := false;
    outcome := Complete;
  }

  /**
   * One pass over the lines, line c stored as column c, with `mapCols` the
   * category positions known so far: it ends early after the first line that
   * shows text at a new position, and with an error at a line with no field.
   */
  method RunPass(cells: array2<real>, lines: seq<Line>, mapCols: set<nat>, mapper: DatasetMapper,
                 toString: real -> string) returns (outcome: PassOutcome, mapColsOut: set<nat>)
    requires |lines| <= cells.Length1 && Narrow(lines, cells.Length0)
    modifies cells, mapper
    ensures outcome == PassFrom(lines, mapCols, 0)
    ensures mapColsOut == AfterPass(lines, mapCols, outcome)
    ensures mapper.requests == old(mapper.requests) + PassRequests(lines, Reach(lines, outcome), mapCols, toString)
    ensures mapper.dimensionality == old(mapper.dimensionality)
    ensures PassWritten(cells, lines, mapCols, Reach(lines, outcome), mapper.mapping, toString, old(Contents(cells)))
  {
    ghost var prior := Contents(cells);
    mapColsOut := mapCols;
    var col := 0;
    while col < |lines|
      invariant col <= |lines| && mapColsOut == mapCols
      invariant PassFrom(lines, mapCols, col) == PassFrom(lines, mapCols, 0)
      invariant mapper.requests == old(mapper.requests) + PassRequests(lines, col, mapCols, toString)
      invariant mapper.dimensionality == old(mapper.dimensionality)
      invariant PassWritten(cells, lines, mapCols, col, mapper.mapping, toString, prior)
    {
      var stop;
      stop, outcome, mapColsOut := PassLine(cells, lines, col, mapColsOut, mapper, toString, prior, old(mapper.requests));
      if stop {
        return;
      }
      col := col + 1;
    }
    outcome := Complete;
  }


  /**
   * Every line of a row-wise parse in turn, line r stored as row r, until a
   * line cannot be parsed.
   */
  method ParseRows(cells: array2<real>, lines: seq<Line>, mapper: DatasetMapper, nCols: nat) returns (status: Status)
    requires nCols == cells.Length1
    requires |lines| <= cells.Length0 && Narrow(lines, nCols)
    requires RowsHold(cells, lines, 0, nCols, mapper.mapping) && mapper.requests == []
    modifies cells, mapper
    ensures status == RowsStatus(lines, nCols, 0)
    ensures RowsReached(lines, status) <= |lines|
    ensures RowsHold(cells, lines, RowsReached(lines, status), nCols, mapper.mapping)
    ensures mapper.requests == RowsRequests(lines, RowsReached(lines, status), nCols)
    ensures mapper.dimensionality == old(mapper.dimensionality)
  {
    var row := 0;
    while row < |lines|
      invariant row <= |lines|
      invariant mapper.dimensionality == old(mapper.dimensionality)
      invariant RowsStatus(lines, nCols, row) == RowsStatus(lines, nCols, 0)
      invariant RowsHold(cells, lines, row, nCols, mapper.mapping)
      invariant mapper.requests == RowsRequests(lines, row, nCols)
    {
      ghost var before := mapper.requests;
      var canParse := ParseRow(cells, lines, row, mapper);
      if !canParse {
        status := Failed(row);
        assert RowsReached(lines, status) == row;
        return;
      }
      RowsRequestsStep(lines, row, nCols, before, mapper.requests);
      row := row + 1;
    }
    return Parsed;
  }

  /**
   * The loader of one file: whether it opens, its lines as the grammar
   * recognises them, the row and column counts it reports, and the conversion
   * of numbers to text used when a number is mapped as a category.
   */
  class LoadCSV {
    const canOpen: bool
    const lines: seq<Line>
    const rowSize: nat
    const colSize: nat
    const toString: real -> string

    constructor (canOpen: bool, lines: seq<Line>, rowSize: nat, colSize: nat, toString: real -> string)
      ensures this.canOpen == canOpen && this.lines == lines && this.rowSize == rowSize
      ensures this.colSize == colSize && this.toString == toString
    {
      this.canOpen := canOpen;
      this.lines := lines;
      this.rowSize := rowSize;
      this.colSize := colSize;
      this.toString := toString;
    }

    /** No more lines than rows and no line wider than the column count. */
    predicate WellShaped() {
      |lines| <= rowSize && Narrow(lines, colSize)
    }

    /** What a non-transposed parse ending in `status` leaves in the matrix and mapper. */
    ghost predicate RowsLoaded(inout: Matrix, infoSet: DatasetMapper, status: Status)
      reads inout, inout.cells, infoSet
    {
      && status == RowsStatus(lines, colSize, 0)
      && infoSet.dimensionality == rowSize
      && inout.cells.Length0 == rowSize && inout.cells.Length1 == colSize
      && RowsHold(inout.cells, lines, RowsReached(lines, status), colSize, infoSet.mapping)
      && RowsReached(lines, status) <= |lines|
      && infoSet.requests == RowsRequests(lines, RowsReached(lines, status), colSize)
    }

    /**
     * What a transposed parse allowed `limit` failed passes and ending in
     * `status` leaves in the matrix and mapper.
     */
    ghost predicate ColumnsLoaded(inout: Matrix, infoSet: DatasetMapper, status: Status, limit: nat)
      reads inout, inout.cells, infoSet
      requires WellShaped()
    {
      && status == Retry(lines, colSize, {}, 0, limit).0
      && infoSet.dimensionality == colSize
      && inout.cells.Length0 == colSize && inout.cells.Length1 == rowSize
      && ZeroOutsideFields(inout.cells, lines)
      && (status == Parsed ==>
            AllLinesHaveFields(lines)
            && TransposeHolds(inout.cells, lines, infoSet.mapping, toString)
            && infoSet.requests == PassRequests(lines, |lines|, Retry(lines, colSize, {}, 0, limit).1, toString))
      && (status == GaveUp ==>
            infoSet.requests == [] && SomeTextUnstored(inout.cells, lines))
    }

    /**
     * Non-transposed parse: every line fills one row, with its numbers when
     * the numeric pass fills the row and with one category code per field
     * otherwise; a line with no field at all stops the parse with an error.
     */
    method NonTranposeParse(inout: Matrix, infoSet: DatasetMapper) returns (status: Status)
      requires WellShaped()
      modifies inout, infoSet
      ensures fresh(inout.cells)
      ensures RowsLoaded(inout, infoSet, status)
    {
      infoSet.Reset(rowSize);
      inout.SetSize(infoSet.dimensionality, colSize);
      status := ParseRows(inout.cells, lines, infoSet, colSize);
    }

    /**
     * One transposed pass: line c is stored as column c, with `mapCols` the
     * category positions known so far. The pass ends early, reporting it,
     * after the first line that shows text at a new position, and with an
     * error at the first line with no field at all.
     */
    method TranposeParseImpl(inout: Matrix, infoSet: DatasetMapper, mapCols: set<nat>)
      returns (outcome: PassOutcome, mapColsOut: set<nat>)
      requires WellShaped()
      requires inout.cells.Length0 == colSize && inout.cells.Length1 == rowSize
      modifies inout.cells, infoSet
      ensures outcome == PassFrom(lines, mapCols, 0)
      ensures mapColsOut == AfterPass(lines, mapCols, outcome)
      ensures infoSet.requests == old(infoSet.requests) + PassRequests(lines, Reach(lines, outcome), mapCols, toString)
      ensures infoSet.dimensionality == old(infoSet.dimensionality)
      ensures PassWritten(inout.cells, lines, mapCols, Reach(lines, outcome), infoSet.mapping, toString,
                          old(Contents(inout.cells)))
    {
      outcome, mapColsOut := RunPass(inout.cells, lines, mapCols, infoSet, toString);
    }

    /**
     * One round of the transposed parse: a pass, and when it ends early
     * because the positions grew, a fresh mapper and the count of failed
     * passes, which stops the parse once it reaches `limit`.
     */
    method ParseAttempt(inout: Matrix, infoSet: DatasetMapper, mapCols: set<nat>, parseTime: nat, limit: nat)
      returns (stop: bool, status: Status, mapColsOut: set<nat>)
      requires WellShaped()
      requires inout.cells.Length0 == colSize && inout.cells.Length1 == rowSize
      requires forall p :: p in mapCols ==> p < colSize && IsTextPosition(lines, p)
      requires Retry(lines, colSize, mapCols, parseTime, limit) == Retry(lines, colSize, {}, 0, limit)
      requires infoSet.requests == [] && infoSet.dimensionality == colSize
      requires ZeroUnwritten(inout.cells, lines, mapCols)
      modifies inout.cells, infoSet
      ensures stop ==> ColumnsLoaded(inout, infoSet, status, limit)
      ensures !stop ==> |mapCols| < |mapColsOut| <= colSize
      ensures !stop ==> forall p :: p in mapColsOut ==> p < colSize && IsTextPosition(lines, p)
      ensures !stop ==> Retry(lines, colSize, mapColsOut, parseTime + 1, limit) == Retry(lines, colSize, {}, 0, limit)
      ensures !stop ==> infoSet.requests == [] && infoSet.dimensionality == colSize
      ensures !stop ==> ZeroUnwritten(inout.cells, lines, mapColsOut)
    {
      var cells := inout.cells;
      var outcome;
      ghost var prior := Contents(cells);
      ZerosInSnapshot(cells, lines, mapCols);
      outcome, mapColsOut := TranposeParseImpl(inout, infoSet, mapCols);
      PassKeepsZeros(cells, lines, mapCols, Reach(lines, outcome), infoSet.mapping, toString, prior);
      UnwrittenOutsideFields(cells, lines, mapCols);
      stop := true;
      if outcome.Complete? {
        ParsedPositionsAreText(lines, colSize, {}, 0, limit);
        CompletePassHolds(cells, lines, mapColsOut, infoSet.mapping, toString, prior);
        return stop, Parsed, mapColsOut;
      } else if outcome.Unparseable? {
        return stop, Failed(outcome.line), mapColsOut;
      }
      BoundedGrowth(lines, colSize, mapCols, outcome.line);
      infoSet.Reset(cells.Length0);
      if parseTime + 1 == limit {
        UnstoredTextField(cells, lines, mapCols, outcome.line);
        return stop, GaveUp, mapColsOut;
      }
      UnwrittenShrinks(cells, lines, mapCols, mapColsOut);
      stop := false;
      status := GaveUp;
    }

    /**
     * The transposed parse: passes are repeated, each with a fresh mapper,
     * until one completes, one meets a line with no field, or `limit` passes
     * have ended early.
     */
    method TranposeParseUpTo(inout: Matrix, infoSet: DatasetMapper, limit: nat) returns (status: Status)
      requires WellShaped()
      modifies inout, infoSet
      ensures fresh(inout.cells)
      ensures ColumnsLoaded(inout, infoSet, status, limit)
    {
      infoSet.Reset(colSize);
      inout.SetSize(infoSet.dimensionality, rowSize);
      var cells := inout.cells;
      var parseTime := 0;
      var mapCols: set<nat> := {};
      ZeroMatrixUnwritten(cells, lines, mapCols);
      while true
        invariant inout.cells == cells && fresh(cells)
        invariant cells.Length0 == colSize && cells.Length1 == rowSize
        invariant forall p :: p in mapCols ==> p < colSize && IsTextPosition(lines, p)
        invariant Retry(lines, colSize, mapCols, parseTime, limit) == Retry(lines, colSize, {}, 0, limit)
        invariant infoSet.requests == [] && infoSet.dimensionality == colSize
        invariant ZeroUnwritten(cells, lines, mapCols)
        decreases colSize - |mapCols|
      {
        var stop;
        stop, status, mapCols := ParseAttempt(inout, infoSet, mapCols, parseTime, limit);
        if stop {
          return;
        }
        parseTime := parseTime + 1;
      }
    }

    /**
     * The transposed parse as written: it gives up after as many early-ending
     * passes as the matrix has rows.
     */
    method TranposeParseAsWritten(inout: Matrix, infoSet: DatasetMapper) returns (status: Status)
      requires WellShaped()
      modifies inout, infoSet
      ensures fresh(inout.cells)
      ensures ColumnsLoaded(inout, infoSet, status, colSize)
    {
      status := TranposeParseUpTo(inout, infoSet, colSize);
    }

    /**
     * The transposed parse allowed one pass more than there are rows, so it
     * never gives up: every pass that ends early discovers a new position.
     */
    method TranposeParse(inout: Matrix, infoSet: DatasetMapper) returns (status: Status)
      requires WellShaped()
      modifies inout, infoSet
      ensures fresh(inout.cells)
      ensures ColumnsLoaded(inout, infoSet, status, colSize + 1)
      ensures status != GaveUp
    {
      status := TranposeParseUpTo(inout, infoSet, colSize + 1);
      CorrectedRetryNeverGivesUp(lines, colSize);
    }

    /**
     * Loading as written: nothing changes when the file cannot be opened (no
     * status); otherwise the flag selects the transposed parse as written or
     * the row-wise parse.
     */
    method Load(inout: Matrix, infoSet: DatasetMapper, transpose: bool) returns (status: Option<Status>)
      requires WellShaped()
      modifies inout, infoSet
      ensures !canOpen ==> status == None && unchanged(inout, infoSet)
      ensures canOpen ==> status.Some? && fresh(inout.cells)
      ensures canOpen && transpose ==> ColumnsLoaded(inout, infoSet, status.value, colSize)
      ensures canOpen && !transpose ==> RowsLoaded(inout, infoSet, status.value)
    {
      if !canOpen {
        return None;
      }
      var s;
      if transpose {
        s := TranposeParseAsWritten(inout, infoSet);
      } else {
        s := NonTranposeParse(inout, infoSet);
      }
      return Some(s);
    }

    /** Loading with the corrected transposed parse, which never gives up. */
    method LoadCorrected(inout: Matrix, infoSet: DatasetMapper, transpose: bool) returns (status: Option<Status>)
      requires WellShaped()
      modifies inout, infoSet
      ensures !canOpen ==> status == None && unchanged(inout, infoSet)
      ensures canOpen ==> status.Some? && fresh(inout.cells) && status.value != GaveUp
      ensures canOpen && transpose ==> ColumnsLoaded(inout, infoSet, status.value, colSize + 1)
      ensures canOpen && !transpose ==> RowsLoaded(inout, infoSet, status.value)
    {
      if !canOpen {
        return None;
      }
      var s;
      if transpose {
        s := TranposeParse(inout, infoSet);
      } else {
        s := NonTranposeParse(inout, infoSet);
        RowsStatusMeaning(lines, colSize, 0);
      }
      return Some(s);
    }
  }

  /**
   * Loading a one-line file whose only field is text, transposed, as written:
   * the load gives up and the field's cell keeps the zero it was sized with.
   */
  method AsWrittenLoadLeavesTextUnstored(mapping: (string, nat) -> nat, toString: real -> string)
    returns (status: Option<Status>, cell: real)
    ensures status == Some(GaveUp) && cell == 0.0
  {
    var loader := new LoadCSV(true, [[Str("a")]], 1, 1, toString);
    var inout := new Matrix();
    var infoSet := new DatasetMapper(mapping, 0);
    status := loader.Load(inout, infoSet, true);
    AsWrittenRetryGivesUp();
    cell := inout.cells[0, 0];
  }

  /** The same file with the corrected load: parsed, and the field stored as its code. */
  method CorrectedLoadStoresText(mapping: (string, nat) -> nat, toString: real -> string)
    returns (status: Option<Status>, cell: real)
    ensures status == Some(Parsed) && cell == mapping("a", 0) as real
  {
    var loader := new LoadCSV(true, [[Str("a")]], 1, 1, toString);
    var inout := new Matrix();
    var infoSet := new DatasetMapper(mapping, 0);
    status := loader.LoadCorrected(inout, infoSet, true);
    AsWrittenRetryGivesUp();
    cell := inout.cells[0, 0];
    assert IsTextPosition(loader.lines, 0);
  }
}
