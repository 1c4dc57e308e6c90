/** The in-memory table the handlers work on (a pandas DataFrame after
    parsing): a header of column labels and rows of opaque cells, every row
    as wide as the header. Positional selection follows pandas `iloc`. */
module Tables {
  import opened Wrappers

  /** Cell values pass through every operation unchanged; their types are
      never interpreted. */
  datatype Cell = Text(text: string) | Number(number: int) | Blank

  datatype Table = Table(header: seq<string>, rows: seq<seq<Cell>>)

  predicate WellFormed(t: Table) {
    forall i :: 0 <= i < |t.rows| ==> |t.rows[i]| == |t.header|
  }

  /** A rectangular table, as every DataFrame is. */
  type Frame = t: Table | WellFormed(t) witness Table([], [])

  function Width(t: Table): nat { |t.header| }

  /** Every position in `idx` names a column of a table `w` wide. */
  predicate Selectable(idx: seq<nat>, w: nat) {
    forall k :: 0 <= k < |idx| ==> idx[k] < w
  }

  /** The values of column `j`, top to bottom. */
  function Column(t: Frame, j: nat): (c: seq<Cell>)
    requires j < Width(t)
    ensures |c| == |t.rows|
  {
    seq(|t.rows|, i requires 0 <= i < |t.rows| => t.rows[i][j])
  }

  /** `[0, 1, ..., n-1]`. */
  function Positions(n: nat): (p: seq<nat>)
    ensures |p| == n
    ensures forall k :: 0 <= k < n ==> p[k] == k
  {
    seq(n, k => k)
  }

  /** One `iloc` column position: negative positions count from the end;
      anything outside `[-w, w)` is out of bounds. */
  function ResolveIndex(i: int, w: nat): (r: Option<nat>)
    ensures r.Some? <==> -(w as int) <= i < w
    ensures r.Some? ==> r.value < w && (r.value == i || r.value == i + w)
  {
    if 0 <= i < w then Some(i)
    else if -(w as int) <= i < 0 then Some(i + w)
    else None
  }

  predicate InBounds(cols: seq<int>, w: nat) {
    forall k :: 0 <= k < |cols| ==> -(w as int) <= cols[k] < w
  }

  /** An `iloc` list of column positions: resolved positions in the given
      order, or `None` (pandas raises IndexError) if any is out of bounds. */
  function ResolveAll(cols: seq<int>, w: nat): (r: Option<seq<nat>>)
    ensures r.Some? <==> InBounds(cols, w)
    ensures r.Some? ==> |r.value| == |cols|
    ensures r.Some? ==> forall k :: 0 <= k < |cols| ==> ResolveIndex(cols[k], w) == Some(r.value[k])
  {
    if |cols| == 0 then Some([])
    else
      match ResolveIndex(cols[0], w)
      case None => None
      case Some(j) =>
        match ResolveAll(cols[1..], w)
        case None =>
          assert !InBounds(cols[1..], w);
          None
        case Some(rest) => Some([j] + rest)
  }

  /** `df.iloc[:, idx]`: the columns at `idx`, in that order, labels kept. */
  function Project(t: Frame, idx: seq<nat>): (r: Frame)
    requires Selectable(idx, |t.header|)
    ensures |r.rows| == |t.rows| && Width(r) == |idx|
  {
    var header := ProjectRow(t.header, idx);
    var rows := seq(|t.rows|, i requires 0 <= i < |t.rows| && |t.rows[i]| == |t.header| =>
      ProjectRow(t.rows[i], idx));
    Table(header, rows)
  }

  function ProjectRow<X>(row: seq<X>, idx: seq<nat>): (r: seq<X>)
    requires Selectable(idx, |row|)
    ensures |r| == |idx|
  {
    seq(|idx|, k requires 0 <= k < |idx| && idx[k] < |row| => row[idx[k]])
  }

  /** Python's normalisation of a slice start `s[start:]` over `n` items. */
  function SliceStart(start: Option<int>, n: nat): (r: nat)
    ensures r <= n
  {
    match start
    case None => 0
    case Some(s) =>
      if s >= 0 then (if s <= n then s else n)
      else if n + s >= 0 then n + s else 0
  }

  /** Python's normalisation of a slice end `s[:end]` over `n` items. */
  function SliceEnd(end: int, n: nat): (r: nat)
    ensures r <= n
  {
    if end >= 0 then (if end <= n then end else n)
    else if n + end >= 0 then n + end else 0
  }

  /** `df.iloc[start:]`: drop the leading data rows. */
  function DropLeading(t: Frame, start: Option<int>): (r: Frame)
    ensures r.header == t.header
  {
    Table(t.header, t.rows[SliceStart(start, |t.rows|)..])
  }

  /** `df.head(n)`: the leading rows, as pandas counts them. */
  function Head(t: Frame, n: int): (r: Frame)
    ensures r.header == t.header
    ensures |r.rows| <= |t.rows| && r.rows == t.rows[..|r.rows|]
    ensures n >= 0 ==> |r.rows| == (if n <= |t.rows| then n else |t.rows|)
    ensures n < 0 ==> |r.rows| == (if |t.rows| + n >= 0 then |t.rows| + n else 0)
  {
    Table(t.header, t.rows[..SliceEnd(n, |t.rows|)])
  }

  /** `df.columns = labels`: same cells, new labels. */
  function Relabel(t: Frame, labels: seq<string>): (r: Frame)
    requires |labels| == Width(t)
    ensures r.header == labels && r.rows == t.rows
  {
    Table(labels, t.rows)
  }

  /** Column `k` of a projection is input column `idx[k]`, cell for cell. */
  lemma ProjectColumn(t: Frame, idx: seq<nat>, k: nat)
    requires Selectable(idx, |t.header|)
    requires k < |idx|
    ensures Project(t, idx).header[k] == t.header[idx[k]]
    ensures Column(Project(t, idx), k) == Column(t, idx[k])
  {
  }

  /** Selecting every column in order gives the table back. */
  lemma {:induction false} ProjectIdentity(t: Frame)
    ensures Project(t, Positions(|t.header|)) == t
  {
    var r := Project(t, Positions(|t.header|));
    assert r.header == t.header;
    forall i | 0 <= i < |t.rows|
      ensures r.rows[i] == t.rows[i]
    {
      assert |r.rows[i]| == |t.rows[i]|;
    }
  }

  /** Selecting `b` out of a selection by `a` selects `a[b[k]]` directly. */
  lemma ProjectCompose(t: Frame, a: seq<nat>, b: seq<nat>)
    requires Selectable(a, |t.header|)
    requires Selectable(b, |a|)
    ensures Project(Project(t, a), b) ==
            Project(t, seq(|b|, k requires 0 <= k < |b| => a[b[k]]))
  {
    var ab := seq(|b|, k requires 0 <= k < |b| => a[b[k]]);
    var l := Project(Project(t, a), b);
    var r := Project(t, ab);
    assert l.header == r.header;
    forall i | 0 <= i < |t.rows|
      ensures l.rows[i] == r.rows[i]
    {
    }
  }

  /** Dropping `s >= 0` rows keeps exactly the rows from index `s` on, in
      order; `None` drops nothing, like `0`. */
  lemma DropLeadingRows(t: Frame, skip: nat)
    ensures |DropLeading(t, Some(skip)).rows| == (if skip <= |t.rows| then |t.rows| - skip else 0)
    ensures forall i :: 0 <= i < |DropLeading(t, Some(skip)).rows| ==>
      DropLeading(t, Some(skip)).rows[i] == t.rows[skip + i]
  {
  }

  lemma DropLeadingDefault(t: Frame)
    ensures DropLeading(t, None) == t
    ensures DropLeading(t, Some(0)) == t
  {
    assert t.rows[0..] == t.rows;
  }
}
