/**
 * The README generator: every example configuration file becomes a
 * `<details>` block, and the blocks replace the text between the two
 * `move_e2e_details` markers of the README.
 */
module Readme {

  import opened Wrappers
  import opened Strings
  import opened Fmt

  /** An example configuration: the fields of its file name and its raw text. */
  datatype Example = Example(filename: seq<string>, raw: string)

  /** The example's first line, without the newline that ends it. */
  function Header(e: Example): (r: string)
    ensures HasPrefix(e.raw, r) && '\n' !in r
    ensures |r| == |e.raw| || e.raw[|r|] == '\n'
  {
    SplitFirstPiece(e.raw, '\n');
    Split(e.raw, '\n')[0]
  }

  /** The example's text after its first line: empty, or starting with a newline. */
  function Content(e: Example): (r: string)
    ensures Header(e) + r == e.raw
    ensures |r| == 0 || r[0] == '\n'
  {
    var r := TrimPrefix(e.raw, Header(e));
    assert |r| > 0 ==> r[0] == e.raw[|Header(e)|];
    r
  }

  const Kubernetes: Plain := "Kubernetes: "
  const Arch: Plain := ", Arch: "
  const Ubuntu: Plain := ", Ubuntu: "
  const Region: Plain := ", Region: "

  /** The labels of the summary line, each followed by a `%s` in its format. */
  const HeaderLabels: seq<Plain> := [Kubernetes, Arch, Ubuntu, Region]

  /** The summary line's format: "Kubernetes: %s, Arch: %s, Ubuntu: %s, Region: %s". */
  const HeaderFormat: string := Template(HeaderLabels)

  /**
   * The summary line of an example: fields 0, 1, 3 and 4 of its file name
   * after their labels (`FormattedHeaderIsSprintf`); field 2 plays no part.
   */
  function FormattedHeader(e: Example): string
    requires |e.filename| >= 5
  {
    Kubernetes + e.filename[0] + Arch + e.filename[1] + Ubuntu + e.filename[3] + Region + e.filename[4]
  }

  /** The summary line fills the four labels with the four fields. */
  lemma HeaderFilled(e: Example)
    requires |e.filename| >= 5
    ensures FormattedHeader(e) == Filled(HeaderLabels, [e.filename[0], e.filename[1], e.filename[3], e.filename[4]])
  {
    var f := e.filename;
    var l := HeaderLabels;
    var xs := [f[0], f[1], f[3], f[4]];
    assert l[1..] == [Arch, Ubuntu, Region] && l[1..][1..] == [Ubuntu, Region];
    assert l[1..][1..][1..] == [Region] && [Region][1..] == [];
    assert xs[1..] == [f[1], f[3], f[4]] && xs[1..][1..] == [f[3], f[4]];
    assert xs[1..][1..][1..] == [f[4]] && [f[4]][1..] == [];
    assert Filled([Region], [f[4]]) == Region + f[4];
    assert Filled([Ubuntu, Region], [f[3], f[4]]) == Ubuntu + (f[3] + (Region + f[4]));
  }

  /** The four fields as `Sprintf` arguments. */
  lemma HeaderArgs(w: string, x: string, y: string, z: string)
    ensures Strs([w, x, y, z]) == [Str(w), Str(x), Str(y), Str(z)]
  {
    assert [z][1..] == [] && Strs([z]) == [Str(z)];
    assert [y, z][1..] == [z] && Strs([y, z]) == [Str(y), Str(z)];
    assert [x, y, z][1..] == [y, z] && Strs([x, y, z]) == [Str(x), Str(y), Str(z)];
    assert [w, x, y, z][1..] == [x, y, z];
  }

  /** The summary line is what Go's `Sprintf` makes of the header format and the four fields. */
  lemma FormattedHeaderIsSprintf(e: Example)
    requires |e.filename| >= 5
    ensures FormattedHeader(e)
         == Sprintf(HeaderFormat, [Str(e.filename[0]), Str(e.filename[1]), Str(e.filename[3]), Str(e.filename[4])])
  {
    var f := e.filename;
    HeaderArgs(f[0], f[1], f[3], f[4]);
    HeaderFilled(e);
    SprintfTemplate(HeaderLabels, [f[0], f[1], f[3], f[4]]);
  }

  /** The fields of a file name: its base name without ".yaml", cut at every '-'. */
  function Fields(path: string): (r: seq<string>)
    ensures |r| >= 1
    ensures Join(r, '-') == Base(TrimSuffix(path, ".yaml"))
    ensures forall k :: 0 <= k < |r| ==> '-' !in r[k]
  {
    var name := Base(TrimSuffix(path, ".yaml"));
    SplitJoin(name, '-');
    SplitPiecesLackSep(name, '-');
    Split(name, '-')
  }

  /** The README text of one example. */
  function Block(e: Example): string
    requires |e.filename| >= 5
  {
    "<details>" + "<summary>" + FormattedHeader(e) + "</summary>\n"
    + "\n```yaml" + Content(e) + "\n```\n" + "</details>\n"
  }

  /** A file the glob matched, and its text, or None when reading it failed. */
  datatype ExampleFile = ExampleFile(path: string, text: Option<string>)

  /** Why the README could not be regenerated. */
  datatype ReadmeError =
    | ReadFailed(path: string)   // a file could not be read
    | InvalidName(path: string)  // a file name with fewer than five fields
    | MissingMarker              // a marker is absent: the slice expression fails

  /** Files whose path ends in "full.yaml" are not shown in the README. */
  predicate Skipped(f: ExampleFile) {
    HasSuffix(f.path, "full.yaml")
  }

  /** The block of one file that is not skipped, or why it has none. */
  function Rendered(f: ExampleFile): Result<string, ReadmeError> {
    match f.text
    case None => Err(ReadFailed(f.path))
    case Some(raw) =>
      var e := Example(Fields(f.path), raw);
      if |e.filename| < 5 then Err(InvalidName(f.path)) else Ok(Block(e))
  }

  /** What one file adds to the README: nothing when it is skipped, else its block or its error. */
  function Outcome(f: ExampleFile): Option<Result<string, ReadmeError>> {
    if Skipped(f) then None else Some(Rendered(f))
  }

  /** The outcomes of the files, in order. */
  function Outcomes(files: seq<ExampleFile>): (r: seq<Option<Result<string, ReadmeError>>>)
    ensures |r| == |files|
    decreases |files|
  {
    if |files| == 0 then [] else Outcomes(files[..|files| - 1]) + [Outcome(files[|files| - 1])]
  }

  /** The blocks of the outcomes, in order, or the first error among them. */
  function Collect(outs: seq<Option<Result<string, ReadmeError>>>): Result<string, ReadmeError>
    decreases |outs|
  {
    if |outs| == 0 then Ok("")
    else
      match Collect(outs[..|outs| - 1])
      case Err(x) => Err(x)
      case Ok(b) =>
        match outs[|outs| - 1]
        case None => Ok(b)
        case Some(Err(x)) => Err(x)
        case Some(Ok(block)) => Ok(b + block)
  }

  /** The blocks of `files`, in order, or the error of the first file that fails. */
  function Details(files: seq<ExampleFile>): Result<string, ReadmeError> {
    Collect(Outcomes(files))
  }

  /** An outcome that stops the generator. */
  predicate Failed(o: Option<Result<string, ReadmeError>>) {
    o.Some? && o.value.Err?
  }

  /** The outcomes that are not skips, in order. */
  function Present(outs: seq<Option<Result<string, ReadmeError>>>): (r: seq<Option<Result<string, ReadmeError>>>)
    ensures forall k :: 0 <= k < |r| ==> r[k].Some?
    decreases |outs|
  {
    if |outs| == 0 then []
    else
      var o := outs[|outs| - 1];
      Present(outs[..|outs| - 1]) + (if o.None? then [] else [o])
  }

  /** Skips make no difference to the fold, wherever they stand. */
  lemma {:induction false} CollectPresent(outs: seq<Option<Result<string, ReadmeError>>>)
    ensures Collect(outs) == Collect(Present(outs))
    decreases |outs|
  {
    if |outs| > 0 {
      var init := outs[..|outs| - 1];
      var o := outs[|outs| - 1];
      CollectPresent(init);
      if o.Some? {
        assert (Present(init) + [o])[..|Present(init)|] == Present(init);
      } else {
        assert Present(init) + [] == Present(init);
      }
    }
  }

  /** The fold fails exactly when some outcome is an error, and it returns the first one. */
  lemma {:induction false} CollectError(outs: seq<Option<Result<string, ReadmeError>>>)
    ensures Collect(outs).Err? <==> exists i :: 0 <= i < |outs| && Failed(outs[i])
    ensures Collect(outs).Err? ==>
      exists i :: 0 <= i < |outs| && Failed(outs[i]) && (forall k :: 0 <= k < i ==> !Failed(outs[k]))
        && Collect(outs).error == outs[i].value.error
    decreases |outs|
  {
    if |outs| > 0 {
      var n := |outs| - 1;
      var init := outs[..n];
      CollectError(init);
      assert forall k :: 0 <= k < n ==> outs[k] == init[k];
      if Collect(init).Err? {
        var i :| 0 <= i < n && Failed(init[i]) && (forall k :: 0 <= k < i ==> !Failed(init[k]))
          && Collect(init).error == init[i].value.error;
        assert Failed(outs[i]);
      }
    }
  }

  /** Once a prefix of the outcomes holds an error, the rest are never looked at. */
  lemma {:induction false} CollectErrorStays(outs: seq<Option<Result<string, ReadmeError>>>, k: nat)
    requires k <= |outs|
    requires Collect(outs[..k]).Err?
    ensures Collect(outs) == Collect(outs[..k])
    decreases |outs|
  {
    if k < |outs| {
      var init := outs[..|outs| - 1];
      assert init[..k] == outs[..k];
      CollectErrorStays(init, k);
    } else {
      assert outs[..k] == outs;
    }
  }

  /** Each outcome belongs to the file at the same position. */
  lemma {:induction false} OutcomesAt(files: seq<ExampleFile>, i: nat)
    requires i < |files|
    ensures Outcomes(files)[i] == Outcome(files[i])
    decreases |files|
  {
    if i < |files| - 1 {
      OutcomesAt(files[..|files| - 1], i);
    }
  }

  /** The outcomes of a prefix of the files are a prefix of the outcomes. */
  lemma {:induction false} OutcomesPrefix(files: seq<ExampleFile>, k: nat)
    requires k <= |files|
    ensures Outcomes(files[..k]) == Outcomes(files)[..k]
    decreases |files|
  {
    if k < |files| {
      var init := files[..|files| - 1];
      assert init[..k] == files[..k];
      OutcomesPrefix(init, k);
      assert (Outcomes(init) + [Outcome(files[|files| - 1])])[..k] == Outcomes(init)[..k];
    } else {
      assert files[..k] == files;
    }
  }

  /** One more file: skipped, or its block appended, or its error. */
  lemma DetailsStep(files: seq<ExampleFile>, k: nat, b: string)
    requires k < |files| && Details(files[..k]) == Ok(b)
    ensures Details(files[..k + 1])
         == if Skipped(files[k]) then Ok(b)
            else match Rendered(files[k]) case Err(x) => Err(x) case Ok(block) => Ok(b + block)
  {
    assert files[..k + 1][..k] == files[..k];
    var outs := Outcomes(files[..k]);
    assert Outcomes(files[..k + 1]) == outs + [Outcome(files[k])];
    assert (outs + [Outcome(files[k])])[..k] == outs;
  }

  /** A file that stops the generator: it is not skipped, and it cannot be read or has a bad name. */
  predicate Fails(f: ExampleFile) {
    !Skipped(f) && Rendered(f).Err?
  }

  /** The generator fails exactly when some file fails, and it reports the first one. */
  lemma DetailsError(files: seq<ExampleFile>)
    ensures Details(files).Err? <==> exists i :: 0 <= i < |files| && Fails(files[i])
    ensures Details(files).Err? ==>
      exists i :: 0 <= i < |files| && Fails(files[i]) && (forall k :: 0 <= k < i ==> !Fails(files[k]))
        && Details(files).error == Rendered(files[i]).error
  {
    var outs := Outcomes(files);
    CollectError(outs);
    forall i | 0 <= i < |files| ensures Failed(outs[i]) <==> Fails(files[i]) {
      OutcomesAt(files, i);
    }
    if Details(files).Err? {
      var i :| 0 <= i < |outs| && Failed(outs[i]) && (forall k :: 0 <= k < i ==> !Failed(outs[k]))
        && Collect(outs).error == outs[i].value.error;
      OutcomesAt(files, i);
    }
  }

  /** Once a prefix of the files fails, the rest are never looked at. */
  lemma DetailsErrorStays(files: seq<ExampleFile>, k: nat)
    requires k <= |files|
    requires Details(files[..k]).Err?
    ensures Details(files) == Details(files[..k])
  {
    OutcomesPrefix(files, k);
    CollectErrorStays(Outcomes(files), k);
  }

  /** The files that are not skipped, in order. */
  function Kept(files: seq<ExampleFile>): (r: seq<ExampleFile>)
    ensures forall k :: 0 <= k < |r| ==> !Skipped(r[k])
    decreases |files|
  {
    if |files| == 0 then []
    else
      var f := files[|files| - 1];
      Kept(files[..|files| - 1]) + (if Skipped(f) then [] else [f])
  }

  /** The outcomes of the kept files are the outcomes that are not skips. */
  lemma {:induction false} OutcomesKept(files: seq<ExampleFile>)
    ensures Outcomes(Kept(files)) == Present(Outcomes(files))
    decreases |files|
  {
    if |files| > 0 {
      var init := files[..|files| - 1];
      var f := files[|files| - 1];
      OutcomesKept(init);
      assert Outcomes(files)[..|files| - 1] == Outcomes(init);
      if Skipped(f) {
        assert Kept(init) + [] == Kept(init);
        assert Present(Outcomes(init)) + [] == Present(Outcomes(init));
      } else {
        assert (Kept(init) + [f])[..|Kept(init)|] == Kept(init);
      }
    }
  }

  /** Files whose path ends in "full.yaml" make no difference, wherever they stand. */
  lemma DetailsOfKept(files: seq<ExampleFile>)
    ensures Details(files) == Details(Kept(files))
  {
    OutcomesKept(files);
    CollectPresent(Outcomes(files));
    CollectPresent(Outcomes(Kept(files)));
  }

  const StartMarker: string := "<!--- move_e2e_details_start -->"
  const EndMarker: string := "<!--- move_e2e_details_end -->"

  /**
   * A marker opens with its only '<' and holds no newline; so it cannot
   * overlap another marker's start or reach across a line break.
   */
  predicate IsMarker(m: string) {
    |m| > 0 && m[0] == '<' && (forall k :: 1 <= k < |m| ==> m[k] != '<')
    && forall k :: 0 <= k < |m| ==> m[k] != '\n'
  }

  /**
   * Drops the text from the first `start` up to the first `end`, then puts
   * `start`, the body and `end`, each on its own line, in place of every
   * `end`. Fails when either marker is missing; a start after the end is
   * not an error.
   */
  function Splice(readme: string, body: string, start: string, end: string): (r: Result<string, ReadmeError>)
    requires |end| > 0
    ensures r.Err? <==> !Contains(readme, start) || !Contains(readme, end)
    ensures r.Err? ==> r.error == MissingMarker
  {
    var s := Index(readme, start);
    var e := Index(readme, end);
    if s < 0 || e < 0 then Err(MissingMarker)
    else Ok(ReplaceAll(readme[..s] + readme[e..], end, Section(body, start, end)))
  }

  /** The body between its markers. */
  function Section(body: string, start: string, end: string): string {
    start + "\n" + body + "\n" + end
  }

  /**
   * The README the splice is meant for: both markers present, the first start
   * marker before the first end marker, and no end marker after that one.
   */
  ghost predicate Framed(readme: string, start: string, end: string) {
    var s := Index(readme, start);
    var e := Index(readme, end);
    0 <= s < e && !Contains(readme[e + |end|..], end)
  }

  /** In a framed README the start marker ends before the end marker begins. */
  lemma MarkersApart(readme: string, start: string, end: string)
    requires IsMarker(start) && IsMarker(end) && Framed(readme, start, end)
    ensures Index(readme, start) + |start| <= Index(readme, end)
  {
    var s := Index(readme, start);
    var e := Index(readme, end);
    if e < s + |start| {
      OccursHits(readme, start, s, e);
      OccursHits(readme, end, e, e);
      assert false;
    }
  }

  /** Putting the end marker back after a framed prefix: the first match is the one put back. */
  lemma CutReplaced(readme: string, start: string, end: string, rep: string)
    requires IsMarker(start) && IsMarker(end) && Framed(readme, start, end)
    ensures var s := Index(readme, start); var e := Index(readme, end);
      ReplaceAll(readme[..s] + readme[e..], end, rep) == readme[..s] + rep + readme[e + |end|..]
  {
    var s := Index(readme, start);
    var e := Index(readme, end);
    MarkersApart(readme, start, end);
    var a := readme[..s];
    var b := readme[e + |end|..];
    assert readme[e..] == end + b;
    var cut := a + (end + b);
    forall j: nat | j < |a| ensures !OccursAt(cut, end, j) {
      if OccursAt(cut, end, j) {
        if j + |end| <= |a| {
          assert cut[..s] == readme[..s];
          SamePrefixOccurs(cut, readme, s, end, j);
        } else {
          OccursHits(cut, end, j, |a|);
        }
      }
    }
    ReplaceAllKeepsPrefix(a, end + b, end, rep);
    assert (end + b)[..|end|] == end;
    assert (end + b)[|end|..] == b;
    ReplaceAllAbsent(b, end, rep);
    assert readme[..s] + readme[e..] == cut;
  }

  /**
   * In a framed README the splice replaces exactly the text from the start
   * marker through the end marker by the section, and keeps the rest.
   */
  lemma SpliceFramed(readme: string, body: string, start: string, end: string)
    requires IsMarker(start) && IsMarker(end) && Framed(readme, start, end)
    ensures Splice(readme, body, start, end)
         == Ok(readme[..Index(readme, start)] + Section(body, start, end)
               + readme[Index(readme, end) + |end|..])
  {
    CutReplaced(readme, start, end, Section(body, start, end));
  }

  /**
   * A marker-free stretch, a newline, a body without the marker and another
   * newline: the marker cannot start anywhere before the second newline ends.
   */
  lemma NoMarkerBefore(t: string, m: string, n: nat, body: string)
    requires IsMarker(m) && !Contains(body, m)
    requires forall j: nat :: j + |m| <= n ==> !OccursAt(t, m, j)
    requires n + |body| + 2 <= |t| && t[n] == '\n' && t[n + 1 + |body|] == '\n'
    requires t[n + 1..n + 1 + |body|] == body
    ensures forall j: nat :: j < n + |body| + 2 ==> !OccursAt(t, m, j)
  {
    forall j: nat | j < n + |body| + 2 ensures !OccursAt(t, m, j) {
      if OccursAt(t, m, j) {
        if j + |m| <= n {
        } else if j <= n {
          OccursHits(t, m, j, n);
        } else if j + |m| <= n + 1 + |body| {
          OccursDrop(t, n + 1, m, j - n - 1);
          assert t[n + 1..][..|body|] == body;
          SamePrefixOccurs(t[n + 1..], body, |body|, m, j - n - 1);
        } else {
          OccursHits(t, m, j, n + 1 + |body|);
        }
      }
    }
  }

  /** Where a section placed between `a` and `b` puts its markers, body and newlines. */
  lemma SectionLayout(a: string, body: string, start: string, end: string, b: string, t: string, n: nat)
    requires t == a + Section(body, start, end) + b && n == |a| + |start|
    ensures n + |body| + 2 <= |t| && t[..n] == a + start && t[n] == '\n'
    ensures t[n + 1..n + 1 + |body|] == body && t[n + 1 + |body|] == '\n'
    ensures t[n + |body| + 2..] == end + b
  {
    assert t == (a + start) + ("\n" + body + "\n" + end + b);
    assert t[n + |body| + 2..] == end + b;
  }

  /** The splice, once both markers are found. */
  lemma SpliceAt(readme: string, body: string, start: string, end: string, s: nat, e: nat)
    requires |end| > 0 && Index(readme, start) == s && Index(readme, end) == e
    ensures Splice(readme, body, start, end) == Ok(ReplaceAll(readme[..s] + readme[e..], end, Section(body, start, end)))
  {
  }

  /** Two texts whose markers cut out the same remainder splice alike. */
  lemma SameCut(t: string, readme: string, body: string, start: string, end: string, s: nat, p: nat, e: nat)
    requires |end| > 0
    requires Index(t, start) == s && Index(t, end) == p
    requires Index(readme, start) == s && Index(readme, end) == e
    requires t[..s] + t[p..] == readme[..s] + readme[e..]
    ensures Splice(t, body, start, end) == Splice(readme, body, start, end)
  {
    SpliceAt(t, body, start, end, s, p);
    SpliceAt(readme, body, start, end, s, e);
  }

  /** An occurrence splits the text into what comes before it, the pattern, and the rest. */
  lemma OccurrenceSplits(t: string, m: string, j: nat)
    requires OccursAt(t, m, j)
    ensures t[..j + |m|] == t[..j] + m && t[j..] == m + t[j + |m|..]
  {
    assert t[j..j + |m|] == m;
  }

  /**
   * The text a splice writes agrees with the README up to the end of the
   * start marker, then holds a newline, the body, a newline and the README
   * from its end marker on.
   */
  lemma SplicedText(readme: string, body: string, start: string, end: string, s: nat, e: nat, t: string)
    requires s + |start| <= e && OccursAt(readme, start, s) && OccursAt(readme, end, e)
    requires t == readme[..s] + Section(body, start, end) + readme[e + |end|..]
    ensures var n := s + |start|;
      && n + |body| + 2 <= |t|
      && t[..n] == readme[..n] && t[n] == '\n' && t[n + 1..n + 1 + |body|] == body
      && t[n + 1 + |body|] == '\n' && t[n + |body| + 2..] == readme[e..]
    ensures t[..s] == readme[..s]
  {
    var a := readme[..s];
    var b := readme[e + |end|..];
    SectionLayout(a, body, start, end, b, t, s + |start|);
    OccurrenceSplits(readme, start, s);
    OccurrenceSplits(readme, end, e);
    assert t[..s] == (a + start)[..s];
  }

  /** A text that agrees with another up to the end of its first start marker has that first start marker too. */
  lemma StartKept(readme: string, t: string, start: string, n: nat)
    requires 0 <= Index(readme, start) && n == Index(readme, start) + |start|
    requires n <= |t| && t[..n] == readme[..n]
    ensures Index(t, start) == Index(readme, start)
  {
    var s := Index(readme, start);
    forall j: nat | j <= s ensures OccursAt(t, start, j) <==> OccursAt(readme, start, j) {
      SamePrefixOccurs(t, readme, n, start, j);
    }
    IndexIsFirst(t, start, s);
  }

  /**
   * A text that agrees with a README up to a point before its first end
   * marker, then holds a newline, a body without the marker, a newline and
   * the README from that marker on: its first end marker follows the body.
   */
  lemma EndAfter(readme: string, t: string, body: string, end: string, n: nat)
    requires IsMarker(end) && !Contains(body, end)
    requires n <= Index(readme, end) && n + |body| + 2 <= |t|
    requires t[..n] == readme[..n] && t[n] == '\n' && t[n + 1..n + 1 + |body|] == body
    requires t[n + 1 + |body|] == '\n' && t[n + |body| + 2..] == readme[Index(readme, end)..]
    ensures Index(t, end) == n + |body| + 2
  {
    var e := Index(readme, end);
    var p := n + |body| + 2;
    forall j: nat | j + |end| <= n ensures !OccursAt(t, end, j) {
      SamePrefixOccurs(t, readme, n, end, j);
    }
    NoMarkerBefore(t, end, n, body);
    OccursDrop(readme, e, end, 0);
    OccursDrop(t, p, end, 0);
    IndexIsFirst(t, end, p);
  }

  /** In the spliced text, the first markers are the ones the splice wrote, around the body. */
  lemma SplicedIndexes(readme: string, body: string, start: string, end: string, s: nat, e: nat, t: string)
    requires IsMarker(start) && IsMarker(end) && Framed(readme, start, end)
    requires !Contains(body, end)
    requires s == Index(readme, start) && e == Index(readme, end)
    requires t == readme[..s] + Section(body, start, end) + readme[e + |end|..]
    ensures Index(t, start) == s && Index(t, end) == s + |start| + |body| + 2
    ensures t[..s] == readme[..s] && t[s + |start| + |body| + 2..] == readme[e..]
  {
    MarkersApart(readme, start, end);
    SplicedText(readme, body, start, end, s, e, t);
    StartKept(readme, t, start, s + |start|);
    EndAfter(readme, t, body, end, s + |start|);
  }

  /** Splicing twice with the same body changes nothing more, unless the body holds the end marker. */
  lemma SpliceIdempotent(readme: string, body: string, start: string, end: string)
    requires IsMarker(start) && IsMarker(end) && Framed(readme, start, end)
    requires !Contains(body, end)
    ensures Splice(readme, body, start, end).Ok?
    ensures Splice(Splice(readme, body, start, end).value, body, start, end) == Splice(readme, body, start, end)
  {
    var s := Index(readme, start);
    var e := Index(readme, end);
    SpliceFramed(readme, body, start, end);
    var t := readme[..s] + Section(body, start, end) + readme[e + |end|..];
    assert Splice(readme, body, start, end).value == t;
    SplicedIndexes(readme, body, start, end, s, e, t);
    var p := s + |start| + |body| + 2;
    assert t[..s] + t[p..] == readme[..s] + readme[e..];
    SameCut(t, readme, body, start, end, s, s + |start| + |body| + 2, e);
  }

  /** The new README: the blocks of `files` spliced into the README's text. */
  function UpdatedReadme(files: seq<ExampleFile>, readme: Option<string>): Result<string, ReadmeError> {
    match Details(files)
    case Err(x) => Err(x)
    case Ok(b) =>
      match readme
      case None => Err(ReadFailed("README.md"))
      case Some(text) => Splice(text, b, StartMarker, EndMarker)
  }

  /**
   * Regenerates the README from the example files, in the order the glob
   * listed them; the text returned is what the program writes back.
   */
  method UpdateReadme(files: seq<ExampleFile>, readme: Option<string>) returns (r: Result<string, ReadmeError>)
    ensures r == UpdatedReadme(files, readme)
  {
    var b := "";
    var i := 0;
    while i < |files|
      invariant 0 <= i <= |files|
      invariant Details(files[..i]) == Ok(b)
    {
      var file := files[i];
      DetailsStep(files, i, b);
      if HasSuffix(file.path, "full.yaml") {
        i := i + 1;
        continue;
      }
      if file.text.None? {
        assert Rendered(file) == Err(ReadFailed(file.path));
        DetailsErrorStays(files, i + 1);
        return Err(ReadFailed(file.path));
      }
      var article := Example(Fields(file.path), file.text.value);
      if |article.filename| < 5 {
        assert Rendered(file) == Err(InvalidName(file.path));
        DetailsErrorStays(files, i + 1);
        return Err(InvalidName(file.path));
      }
      assert Rendered(file) == Ok(Block(article));
      b := b + Block(article);
      i := i + 1;
    }
    assert files[..|files|] == files;
    if readme.None? {
      return Err(ReadFailed("README.md"));
    }
    var readmeContent := readme.value;
    r := Splice(readmeContent, b, StartMarker, EndMarker);
  }

  /** Both markers have the shape the splice relies on. */
  lemma MarkersShape()
    ensures IsMarker(StartMarker) && IsMarker(EndMarker)
  {
  }

  /**
   * Regenerating a framed README from the same files a second time leaves
   * it as the first run wrote it, unless a block holds the end marker.
   */
  lemma UpdateIdempotent(files: seq<ExampleFile>, readme: string)
    requires Details(files).Ok? && !Contains(Details(files).value, EndMarker)
    requires Framed(readme, StartMarker, EndMarker)
    ensures UpdatedReadme(files, Some(readme)).Ok?
    ensures UpdatedReadme(files, Some(UpdatedReadme(files, Some(readme)).value)) == UpdatedReadme(files, Some(readme))
  {
    MarkersShape();
    SpliceIdempotent(readme, Details(files).value, StartMarker, EndMarker);
  }
}
