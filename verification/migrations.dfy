/** The pure helpers of the migration environment: numbering new revision
    files after the existing ones, composing the revision id and file name,
    and filtering the objects autogenerate compares. The versions directory
    is given as the stems of its `*.py` files. */
module Migrations {
  import opened Wrappers
  import opened Strings

  /** The number a stem contributes: its first `_`-piece, when all digits. */
  function StemNumber(stem: string): (r: Option<nat>)
    ensures r.Some? <==> IsDigits(FirstSegment(stem, '_'))
  {
    var prefix := FirstSegment(stem, '_');
    if IsDigits(prefix) then Some(ParseDigits(prefix)) else None
  }

  /** The `numbers` list `get_next_number` builds, in stem order. */
  function Numbers(stems: seq<string>): (ns: seq<nat>)
    ensures |ns| <= |stems|
    ensures forall i :: 0 <= i < |stems| && StemNumber(stems[i]).Some? ==> StemNumber(stems[i]).value in ns
    ensures forall x :: x in ns ==> exists i :: 0 <= i < |stems| && StemNumber(stems[i]) == Some(x)
  {
    if |stems| == 0 then []
    else
      var init := stems[..|stems| - 1];
      var rest := Numbers(init);
      assert forall i :: 0 <= i < |init| ==> init[i] == stems[i];
      match StemNumber(stems[|stems| - 1])
      case None => rest
      case Some(n) => rest + [n]
  }

  /** `max(numbers, default=0)`. */
  function MaxOrZero(ns: seq<nat>): (m: nat)
    ensures forall x :: x in ns ==> x <= m
    ensures ns == [] ==> m == 0
    ensures ns != [] ==> m in ns
  {
    if |ns| == 0 then 0
    else
      var rest := MaxOrZero(ns[..|ns| - 1]);
      assert ns == ns[..|ns| - 1] + [ns[|ns| - 1]];
      if ns[|ns| - 1] > rest then ns[|ns| - 1] else rest
  }

  /** `get_next_number`: one past the largest numbered stem, or 1. */
  function NextNumber(stems: seq<string>): (n: nat)
    ensures n >= 1
    ensures forall i :: 0 <= i < |stems| && StemNumber(stems[i]).Some? ==> StemNumber(stems[i]).value < n
    ensures n == 1 || exists i :: 0 <= i < |stems| && StemNumber(stems[i]) == Some(n - 1)
    ensures (forall i :: 0 <= i < |stems| ==> StemNumber(stems[i]).None?) ==> n == 1
  {
    MaxOrZero(Numbers(stems)) + 1
  }

  /** `f"{n:04d}"`: at least four digits, zero-padded, never truncated. */
  function Prefix(n: nat): (p: string)
    ensures IsDigits(p)
    ensures |p| == (if |NatToDigits(n)| < 4 then 4 else |NatToDigits(n)|)
    ensures ParseDigits(p) == n
  {
    var digits := NatToDigits(n);
    if |digits| < 4 then
      ParseIgnoresLeadingZeros(4 - |digits|, digits);
      Zeros(4 - |digits|) + digits
    else digits
  }

  /** An attribute read with `getattr`: missing, `None`, or a string. */
  datatype Attr = Missing | NoneValue | Text(s: string)

  /** How an f-string renders an attribute value. */
  function Render(a: Attr): string {
    match a
    case Text(s) => s
    case _ => "None"
  }

  /** Python truthiness of the message. */
  predicate Truthy(a: Attr) {
    a.Text? && |a.s| > 0
  }

  /** The fields of the first directive that the hook reads and writes. */
  datatype Directive = Directive(revId: Attr, message: Attr, path: string)

  /** `prefix + "_" + rev_id`, the old id defaulting to `"base"`. */
  function RevisionId(prefix: string, oldRevId: Attr): (id: string)
    ensures StartsWith(id, prefix + "_")
    ensures oldRevId.Missing? ==> id[|prefix| + 1..] == "base"
    ensures oldRevId.Text? ==> id[|prefix| + 1..] == oldRevId.s
    ensures oldRevId.NoneValue? ==> id[|prefix| + 1..] == "None"
  {
    prefix + "_" + (if oldRevId.Missing? then "base" else Render(oldRevId))
  }

  /** The new file name: `id_message.py` for a truthy message, else `id.py`;
      a missing message reads as `"manual"`. */
  function FileName(revisionId: string, message: Attr): (name: string)
    ensures StartsWith(name, revisionId)
    ensures |name| >= |revisionId| + 3 && name[|name| - 3..] == ".py"
    ensures |name| > |revisionId| + 3 <==> message.Missing? || Truthy(message)
    ensures |name| > |revisionId| + 3 ==> name[|revisionId|] == '_'
    ensures message.Missing? ==> name[|revisionId|..] == "_manual.py"
    ensures Truthy(message) ==> name[|revisionId|..] == "_" + message.s + ".py"
    ensures !message.Missing? && !Truthy(message) ==> name[|revisionId|..] == ".py"
  {
    var msg := if message.Missing? then Text("manual") else message;
    if Truthy(msg) then revisionId + "_" + Render(msg) + ".py" else revisionId + ".py"
  }

  /** `os.path.join(directory, name)` for a relative `name`. */
  function JoinPath(directory: string, name: string): string {
    if |directory| == 0 || directory[|directory| - 1] == '/' then directory + name
    else directory + "/" + name
  }

  /** `process_revision_directives`: with no directives nothing changes;
      otherwise the first directive gets the numbered id and its path, the
      others are left alone. */
  function ProcessRevisionDirectives(stems: seq<string>, versionsDir: string, directives: seq<Directive>)
    : (r: seq<Directive>)
    ensures directives == [] ==> r == []
    ensures |r| == |directives|
    ensures |directives| > 0 ==> r[1..] == directives[1..]
    ensures |directives| > 0 ==>
      var id := RevisionId(Prefix(NextNumber(stems)), directives[0].revId);
      && r[0].revId == Text(id)
      && r[0].message == directives[0].message
      && r[0].path == JoinPath(versionsDir, FileName(id, directives[0].message))
  {
    if |directives| == 0 then directives
    else
      var script := directives[0];
      var id := RevisionId(Prefix(NextNumber(stems)), script.revId);
      [script.(revId := Text(id), path := JoinPath(versionsDir, FileName(id, script.message)))] + directives[1..]
  }

  /** `Path(name).stem` for a `*.py` name. */
  function Stem(name: string): string
    requires |name| >= 3
  {
    name[..|name| - 3]
  }

  /** Round trip: the file this hook names carries the number it was given,
      so the next number handed out is one larger. */
  lemma {:induction false} NextNumberAfterNewFile(stems: seq<string>, oldRevId: Attr, message: Attr)
    ensures var n := NextNumber(stems);
            var name := FileName(RevisionId(Prefix(n), oldRevId), message);
            NextNumber(stems + [Stem(name)]) == n + 1
  {
    var n := NextNumber(stems);
    var stem := Stem(FileName(RevisionId(Prefix(n), oldRevId), message));
    NewStemNumber(n, oldRevId, message);
    NumbersSnoc(stems, stem, n);
    MaxOfLargerLast(Numbers(stems), n);
  }

  /** A stem whose first `_`-piece is not all digits does not move the
      next number. */
  lemma {:induction false} UnnumberedStemIgnored(stems: seq<string>, stem: string)
    requires StemNumber(stem).None?
    ensures NextNumber(stems + [stem]) == NextNumber(stems)
  {
    var all := stems + [stem];
    assert all[..|all| - 1] == stems;
    assert Numbers(all) == Numbers(stems);
  }

  /** The stem of the new file reads back as the number it was built from. */
  lemma NewStemNumber(n: nat, oldRevId: Attr, message: Attr)
    ensures StemNumber(Stem(FileName(RevisionId(Prefix(n), oldRevId), message))) == Some(n)
  {
    var p := Prefix(n);
    var name := FileName(RevisionId(p, oldRevId), message);
    var stem := Stem(name);
    assert StartsWith(stem, p + "_") by {
      assert name[..|p| + 1] == (p + "_");
    }
    FirstSegmentOfNumbered(p, stem);
  }

  lemma NumbersSnoc(stems: seq<string>, stem: string, n: nat)
    requires StemNumber(stem) == Some(n)
    ensures Numbers(stems + [stem]) == Numbers(stems) + [n]
  {
    var all := stems + [stem];
    assert all[..|all| - 1] == stems;
  }

  /** A stem that starts with a digit string and `_` has that string as its
      first piece. */
  lemma FirstSegmentOfNumbered(p: string, stem: string)
    requires IsDigits(p) && StartsWith(stem, p + "_")
    ensures FirstSegment(stem, '_') == p
  {
    assert stem[|p|] == '_';
  }

  lemma MaxOfLargerLast(ns: seq<nat>, n: nat)
    requires forall x :: x in ns ==> x < n
    ensures MaxOrZero(ns + [n]) == n
  {
    assert (ns + [n])[..|ns|] == ns;
  }

  /** `include_object`: tables outside the configured schema, and anything
      named `alembic_version`, are left out of autogenerate. */
  function IncludeObject(objectSchema: Option<string>, name: string, objectType: string,
                         dbSchema: Option<string>): (included: bool)
    ensures included <==>
      !(objectType == "table" && objectSchema != dbSchema) && name != "alembic_version"
  {
    if objectType == "table" && objectSchema != dbSchema then false
    else if name == "alembic_version" then false
    else true
  }
}
