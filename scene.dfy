/**
 * The portal half of `LoadScene` (app/main.go): recognising portal nodes by name, reading a
 * quad off each node's transform, collecting the index -> exit link table, and pairing every
 * portal whose exit exists.
 */
module SceneLoading {
  import opened LinearAlgebra
  import opened Wrappers
  import opened Portal

  // ---------------------------------------------------------------------------
  // Portal names: `^Portal_(\d+)_(\d+)` and `strconv.Atoi`

  predicate IsDigit(c: char) { '0' <= c <= '9' }

  predicate AllDigits(s: string) { forall i :: 0 <= i < |s| ==> IsDigit(s[i]) }

  /** Length of the longest run of ASCII digits at the front of `s` (what a greedy `\d+` takes). */
  function DigitRun(s: string): (n: nat)
    ensures n <= |s| && AllDigits(s[..n])
    ensures n < |s| ==> !IsDigit(s[n])
  {
    if s == [] || !IsDigit(s[0]) then 0
    else
      var m := DigitRun(s[1..]);
      assert s[..1 + m] == [s[0]] + s[1..][..m];
      1 + m
  }

  function DigitValue(c: char): nat
    requires IsDigit(c)
  {
    c as int - '0' as int
  }

  /** The value of a decimal numeral, most significant digit first, leading zeros allowed. */
  function DecimalValue(ds: string): nat
    requires AllDigits(ds)
  {
    if ds == [] then 0 else 10 * DecimalValue(ds[..|ds| - 1]) + DigitValue(ds[|ds| - 1])
  }

  /** The largest value `strconv.Atoi` accepts on a 64-bit platform. */
  const MaxInt: int := 0x7FFF_FFFF_FFFF_FFFF

  const Prefix: string := "Portal_"

  /** What the pattern and the two `Atoi` calls make of a node name. */
  datatype NameMatch =
    | NotPortal                           // the pattern does not match: an ordinary scene node
    | PortalName(index: int, exit: int)   // a portal and the index of its exit
    | OutOfRange(digits: string)          // `Atoi` fails on a captured numeral: the source panics

  /**
   * The anchored pattern `^Portal_(\d+)_(\d+)`: the prefix, a maximal digit run, an underscore,
   * a maximal digit run, then anything. Each captured run is converted with `Atoi`, the index
   * first.
   */
  function ParsePortalName(name: string): (r: NameMatch)
    ensures !(Prefix <= name) ==> r == NotPortal
    ensures r.PortalName? ==> 0 <= r.index <= MaxInt && 0 <= r.exit <= MaxInt
  {
    if !(Prefix <= name) then NotPortal
    else
      var rest := name[|Prefix|..];
      var n1 := DigitRun(rest);
      if n1 == 0 || n1 == |rest| || rest[n1] != '_' then NotPortal
      else
        var tail := rest[n1 + 1..];
        var n2 := DigitRun(tail);
        if n2 == 0 then NotPortal
        else if DecimalValue(rest[..n1]) > MaxInt then OutOfRange(rest[..n1])
        else if DecimalValue(tail[..n2]) > MaxInt then OutOfRange(tail[..n2])
        else PortalName(DecimalValue(rest[..n1]), DecimalValue(tail[..n2]))
  }

  function DigitChar(d: nat): (c: char)
    requires d < 10
    ensures IsDigit(c) && DigitValue(c) == d
  {
    ('0' as int + d) as char
  }

  /** The decimal numeral of `n`, as `strconv.Itoa` writes it. */
  function Decimal(n: nat): (s: string)
    ensures |s| >= 1 && AllDigits(s)
  {
    if n < 10 then [DigitChar(n)] else Decimal(n / 10) + [DigitChar(n % 10)]
  }

  /** Reading back a written numeral gives the number. */
  lemma {:induction false} DecimalRoundTrip(n: nat)
    ensures DecimalValue(Decimal(n)) == n
  {
    if n >= 10 {
      var s := Decimal(n);
      assert s[..|s| - 1] == Decimal(n / 10);
      DecimalRoundTrip(n / 10);
    }
  }

  /** A greedy digit run stops exactly where the digits end. */
  lemma {:induction false} DigitRunStops(ds: string, t: string)
    requires AllDigits(ds)
    requires t == [] || !IsDigit(t[0])
    ensures DigitRun(ds + t) == |ds|
  {
    if ds != [] {
      assert (ds + t)[1..] == ds[1..] + t;
      DigitRunStops(ds[1..], t);
    }
  }

  /**
   * A name made of the prefix, a numeral, an underscore, a numeral and a suffix that does not
   * start with a digit parses into the two numerals' values, the index checked first.
   */
  lemma ParseNumerals(name: string, d1: string, d2: string, suffix: string)
    requires |d1| >= 1 && |d2| >= 1 && AllDigits(d1) && AllDigits(d2)
    requires suffix == [] || !IsDigit(suffix[0])
    requires name == Prefix + d1 + "_" + d2 + suffix
    ensures ParsePortalName(name) ==
      if DecimalValue(d1) > MaxInt then OutOfRange(d1)
      else if DecimalValue(d2) > MaxInt then OutOfRange(d2)
      else PortalName(DecimalValue(d1), DecimalValue(d2))
  {
    var rest := name[|Prefix|..];
    NumeralsSplit(name, d1, d2, suffix);
    assert DigitRun(rest) == |d1| && rest[|d1|] == '_';
    assert DigitRun(rest[|d1| + 1..]) == |d2|;
  }

  /** Where the captures of `ParsePortalName` fall in such a name. */
  lemma NumeralsSplit(name: string, d1: string, d2: string, suffix: string)
    requires |d1| >= 1 && |d2| >= 1 && AllDigits(d1) && AllDigits(d2)
    requires suffix == [] || !IsDigit(suffix[0])
    requires name == Prefix + d1 + "_" + d2 + suffix
    ensures Prefix <= name && |name| > |Prefix| + |d1|
    ensures name[|Prefix|..][|d1|] == '_' && DigitRun(name[|Prefix|..]) == |d1|
    ensures name[|Prefix|..][..|d1|] == d1
    ensures name[|Prefix|..][|d1| + 1..] == d2 + suffix && DigitRun(d2 + suffix) == |d2|
    ensures (d2 + suffix)[..|d2|] == d2
  {
    NameLayout(name, d1, d2, suffix);
    RestLayout(d1, d2 + suffix);
    DigitRunStops(d1, "_" + (d2 + suffix));
    DigitRunStops(d2, suffix);
    SplitAt(d2 + suffix, d2, suffix);
  }

  lemma NameLayout(name: string, d1: string, d2: string, suffix: string)
    requires name == Prefix + d1 + "_" + d2 + suffix
    ensures Prefix <= name && name[|Prefix|..] == d1 + ("_" + (d2 + suffix))
  {
    assert name == Prefix + (d1 + ("_" + (d2 + suffix)));
    SplitAt(name, Prefix, d1 + ("_" + (d2 + suffix)));
  }

  lemma RestLayout(d1: string, tail: string)
    ensures (d1 + ("_" + tail))[|d1|] == '_'
    ensures (d1 + ("_" + tail))[..|d1|] == d1
    ensures (d1 + ("_" + tail))[|d1| + 1..] == tail
  {
    SplitAt(d1 + ("_" + tail), d1, "_" + tail);
    SplitAt(d1 + ("_" + tail), d1 + "_", tail);
  }

  lemma SplitAt(s: string, a: string, b: string)
    requires s == a + b
    ensures a <= s && s[..|a|] == a && s[|a|..] == b
  {
  }

  /**
   * Naming a node `Portal_<i>_<j>` followed by anything that does not start with a digit makes
   * it portal `i` with exit `j`, unless a numeral is beyond `Atoi`'s range (the index checked first).
   */
  lemma ParseRoundTrip(i: nat, j: nat, suffix: string)
    requires suffix == [] || !IsDigit(suffix[0])
    ensures var r := ParsePortalName(Prefix + Decimal(i) + "_" + Decimal(j) + suffix);
      if i > MaxInt then r == OutOfRange(Decimal(i))
      else if j > MaxInt then r == OutOfRange(Decimal(j))
      else r == PortalName(i, j)
  {
    ParseNumerals(Prefix + Decimal(i) + "_" + Decimal(j) + suffix, Decimal(i), Decimal(j), suffix);
    DecimalRoundTrip(i);
    DecimalRoundTrip(j);
  }

  /** `name` is the prefix, the numeral `d1`, an underscore, the numeral `d2` and a suffix not starting with a digit. */
  predicate PatternSplit(name: string, d1: string, d2: string, suffix: string) {
    |d1| >= 1 && |d2| >= 1 && AllDigits(d1) && AllDigits(d2) && (suffix == [] || !IsDigit(suffix[0])) &&
    name == Prefix + d1 + "_" + d2 + suffix
  }

  /** A name is classified as a portal (in range or not) exactly when the pattern matches it. */
  lemma ParseMatchesPattern(name: string)
    ensures ParsePortalName(name) != NotPortal <==>
      exists d1, d2, suffix :: PatternSplit(name, d1, d2, suffix)
  {
    if ParsePortalName(name) != NotPortal {
      PortalNameSplits(name);
    }
    if exists d1, d2, suffix :: PatternSplit(name, d1, d2, suffix) {
      var d1, d2, suffix :| PatternSplit(name, d1, d2, suffix);
      ParseNumerals(name, d1, d2, suffix);
    }
  }

  /** The captures of a name the parser accepts split it as the pattern says. */
  lemma PortalNameSplits(name: string)
    requires ParsePortalName(name) != NotPortal
    ensures var rest := name[|Prefix|..];
      var tail := rest[DigitRun(rest) + 1..];
      PatternSplit(name, rest[..DigitRun(rest)], tail[..DigitRun(tail)], tail[DigitRun(tail)..])
  {
    var rest := name[|Prefix|..];
    var n1 := DigitRun(rest);
    assert 0 < n1 < |rest| && rest[n1] == '_';
    var tail := rest[n1 + 1..];
    var n2 := DigitRun(tail);
    assert n2 > 0;
    Reassemble(name, rest, n1, tail, n2);
  }

  lemma Reassemble(name: string, rest: string, n1: nat, tail: string, n2: nat)
    requires Prefix <= name && rest == name[|Prefix|..]
    requires n1 < |rest| && rest[n1] == '_' && tail == rest[n1 + 1..] && n2 <= |tail|
    ensures name == Prefix + rest[..n1] + "_" + tail[..n2] + tail[n2..]
  {
    assert name == Prefix + rest;
    assert rest[n1..] == "_" + tail;
    assert rest == rest[..n1] + rest[n1..];
    assert tail == tail[..n2] + tail[n2..];
    Associate(Prefix, rest[..n1], tail[..n2], tail[n2..]);
  }

  lemma Associate(p: string, a: string, b: string, c: string)
    ensures p + a + "_" + b + c == p + (a + ("_" + (b + c)))
  {
  }

  /** Names that are not portals, whatever follows the prefix. */
  lemma NotPortalNames()
    ensures ParsePortalName("portal_1_2") == NotPortal
    ensures ParsePortalName("Portal_1") == NotPortal
    ensures ParsePortalName("Portal__2") == NotPortal
    ensures ParsePortalName("Portal_1_") == NotPortal
  {
    assert "portal_1_2"[0] != Prefix[0];
    assert !IsDigit('_');
    assert "Portal_1"[|Prefix|..] == "1";
    assert "Portal__2"[|Prefix|..] == "_2";
    assert "Portal_1_"[|Prefix|..] == "1_";
    assert "1_"[2..] == [];
  }

  // ---------------------------------------------------------------------------
  // Portal nodes

  /** A node of the visual scene: its name and its world transform. */
  datatype SceneNode = SceneNode(name: string, transform: Mat4)

  /** The sum of the squares of the first `j` entries of column `i` (flat entries `4i .. 4i+j-1`). */
  function SquareSum(mt: Mat4, i: nat, j: nat): real
    requires i < 3 && j <= 3
  {
    if j == 0 then 0.0 else SquareSum(mt, i, j - 1) + mt.At(4 * i + j - 1) * mt.At(4 * i + j - 1)
  }

  /** The quad of a portal node with world transform `mt`: its frame maps the unit quad at the origin. */
  function QuadOfTransform(lib: MathLib, mt: Mat4): Quad {
    Quad(MulV(mt, Origin), lib.normalize4(MulV(mt, ZAxis)), lib.normalize4(MulV(mt, XAxis)),
         Vec4(lib.sqrt(SquareSum(mt, 0, 3)), lib.sqrt(SquareSum(mt, 1, 3)), lib.sqrt(SquareSum(mt, 2, 3)), 0.0))
  }

  /**
   * The quad sits at the transform's translation, faces along its third column, and each
   * extent is the length of the linear part's column: scaling is read off the transform.
   */
  lemma QuadOfTransformFrame(lib: MathLib, mt: Mat4)
    ensures QuadOfTransform(lib, mt).center == mt.c3
    ensures QuadOfTransform(lib, mt).normal == lib.normalize4(mt.c2)
    ensures QuadOfTransform(lib, mt).planeV == lib.normalize4(mt.c0)
    ensures QuadOfTransform(lib, mt).scale ==
      Vec4(lib.sqrt(Dot3(mt.c0.Xyz(), mt.c0.Xyz())), lib.sqrt(Dot3(mt.c1.Xyz(), mt.c1.Xyz())),
           lib.sqrt(Dot3(mt.c2.Xyz(), mt.c2.Xyz())), 0.0)
  {
    SquareSumColumn(mt, 0);
    SquareSumColumn(mt, 1);
    SquareSumColumn(mt, 2);
  }

  lemma SquareSumColumn(mt: Mat4, i: nat)
    requires i < 3
    ensures SquareSum(mt, i, 3) == Dot3(mt.Column(i).Xyz(), mt.Column(i).Xyz())
  {
    var c := mt.Column(i);
    assert (4 * i) / 4 == i && (4 * i) % 4 == 0;
    assert (4 * i + 1) / 4 == i && (4 * i + 1) % 4 == 1;
    assert (4 * i + 2) / 4 == i && (4 * i + 2) % 4 == 2;
    assert SquareSum(mt, i, 1) == c.x * c.x;
    assert SquareSum(mt, i, 2) == c.x * c.x + c.y * c.y;
  }

  /**
   * The scale loop of `LoadScene`: `n` walks the flat matrix, three entries per column, skipping
   * the fourth row, and each extent is the square root of the column's sum of squares.
   */
  method ColumnScales(lib: MathLib, mt: Mat4) returns (scale: Vec4)
    ensures scale == QuadOfTransform(lib, mt).scale
  {
    var s := new real[4](_ => 0.0);
    var n := 0;
    for i := 0 to 3
      invariant n == 4 * i
      invariant forall k :: 0 <= k < i ==> s[k] == lib.sqrt(SquareSum(mt, k, 3))
      invariant s[3] == 0.0
    {
      var sum := 0.0;
      for j := 0 to 3
        invariant n == 4 * i + j
        invariant sum == SquareSum(mt, i, j)
      {
        sum := sum + mt.At(n) * mt.At(n);
        n := n + 1;
      }
      n := n + 1;
      s[i] := lib.sqrt(sum);
    }
    scale := Vec4(s[0], s[1], s[2], s[3]);
  }

  // ---------------------------------------------------------------------------
  // Link tables

  /** The two maps `LoadScene` fills: `portalLink` (index -> exit index) and `portals` (index -> quad). */
  datatype LinkTables = LinkTables(link: map<int, int>, quads: map<int, Quad>) {
    predicate WellFormed() { link.Keys == quads.Keys }
  }

  datatype LoadError = BadIndex(digits: string) | BadGeometry(fault: Fault)

  /** Some node among `nodes` is a portal that `parse` names with index `id`. */
  predicate Names(parse: string -> NameMatch, nodes: seq<SceneNode>, id: int) {
    exists k :: 0 <= k < |nodes| && parse(nodes[k].name).PortalName? && parse(nodes[k].name).index == id
  }

  /**
   * The tables after visiting `nodes` in order, each name classified by `parse`: a later node
   * with the same index overwrites an earlier one, and a numeral out of `Atoi`'s range stops the
   * load. `LoadScene` classifies with `ParsePortalName` (see `Collected`); the laws below hold for
   * any classifier.
   */
  function CollectedBy(parse: string -> NameMatch, lib: MathLib, model: Mat4, nodes: seq<SceneNode>): (r: Result<LinkTables, LoadError>)
    ensures r.Success? ==> r.value.WellFormed()
  {
    if nodes == [] then Success(LinkTables(map[], map[]))
    else
      var front, node := nodes[..|nodes| - 1], nodes[|nodes| - 1];
      match CollectedBy(parse, lib, model, front)
      case Failure(e) => Failure(e)
      case Success(t) =>
        match parse(node.name)
        case NotPortal => Success(t)
        case OutOfRange(ds) => Failure(BadIndex(ds))
        case PortalName(index, exit) =>
          Success(LinkTables(t.link[index := exit], t.quads[index := QuadOfTransform(lib, Mul(model, node.transform))]))
  }

  function Collected(lib: MathLib, model: Mat4, nodes: seq<SceneNode>): Result<LinkTables, LoadError> {
    CollectedBy(ParsePortalName, lib, model, nodes)
  }

  /** Exactly the indices some portal node is named with get a link entry. */
  lemma {:induction false} CollectedKeys(parse: string -> NameMatch, lib: MathLib, model: Mat4, nodes: seq<SceneNode>)
    requires CollectedBy(parse, lib, model, nodes).Success?
    ensures forall id :: id in CollectedBy(parse, lib, model, nodes).value.link <==> Names(parse, nodes, id)
  {
    if nodes != [] {
      var front := nodes[..|nodes| - 1];
      CollectedKeys(parse, lib, model, front);
      forall id
        ensures id in CollectedBy(parse, lib, model, nodes).value.link <==> Names(parse, nodes, id)
      {
        if Names(parse, front, id) {
          var k :| 0 <= k < |front| && parse(front[k].name).PortalName? && parse(front[k].name).index == id;
          assert nodes[k] == front[k];
        }
        if Names(parse, nodes, id) {
          var k :| 0 <= k < |nodes| && parse(nodes[k].name).PortalName? && parse(nodes[k].name).index == id;
          if k < |front| {
            assert front[k] == nodes[k];
          }
        }
      }
    }
  }

  /** The load stops exactly when some portal-looking name has a numeral beyond `Atoi`'s range. */
  lemma {:induction false} CollectedFails(parse: string -> NameMatch, lib: MathLib, model: Mat4, nodes: seq<SceneNode>)
    ensures CollectedBy(parse, lib, model, nodes).Failure? <==>
      exists k :: 0 <= k < |nodes| && parse(nodes[k].name).OutOfRange?
  {
    if nodes != [] {
      var front := nodes[..|nodes| - 1];
      CollectedFails(parse, lib, model, front);
      if exists k :: 0 <= k < |front| && parse(front[k].name).OutOfRange? {
        var k :| 0 <= k < |front| && parse(front[k].name).OutOfRange?;
        assert nodes[k] == front[k];
      }
      if exists k :: 0 <= k < |nodes| && parse(nodes[k].name).OutOfRange? {
        var k :| 0 <= k < |nodes| && parse(nodes[k].name).OutOfRange?;
        if k < |front| {
          assert front[k] == nodes[k];
        }
      }
    }
  }

  /** The last node named with an index decides that index's exit and quad. */
  lemma {:induction false} CollectedLastWins(parse: string -> NameMatch, lib: MathLib, model: Mat4, nodes: seq<SceneNode>, k: nat)
    requires k < |nodes| && CollectedBy(parse, lib, model, nodes).Success?
    requires parse(nodes[k].name).PortalName?
    requires forall m :: k < m < |nodes| ==>
      !parse(nodes[m].name).PortalName? || parse(nodes[m].name).index != parse(nodes[k].name).index
    ensures var t, p := CollectedBy(parse, lib, model, nodes).value, parse(nodes[k].name);
      p.index in t.link && t.link[p.index] == p.exit &&
      p.index in t.quads && t.quads[p.index] == QuadOfTransform(lib, Mul(model, nodes[k].transform))
  {
    var front := nodes[..|nodes| - 1];
    if k < |nodes| - 1 {
      assert front[k] == nodes[k];
      assert forall m :: k < m < |front| ==> front[m] == nodes[m];
      CollectedLastWins(parse, lib, model, front, k);
    }
  }

  /**
   * The node loop of `LoadScene`: parse each name and record portal nodes in the two tables,
   * stopping at the first numeral `Atoi` rejects.
   */
  method CollectPortals(lib: MathLib, model: Mat4, nodes: seq<SceneNode>) returns (r: Result<LinkTables, LoadError>)
    ensures r == Collected(lib, model, nodes)
  {
    var portalLink: map<int, int> := map[];
    var portals: map<int, Quad> := map[];
    for i := 0 to |nodes|
      invariant Collected(lib, model, nodes[..i]) == Success(LinkTables(portalLink, portals))
    {
      assert nodes[..i + 1][..i] == nodes[..i];
      var node := nodes[i];
      match ParsePortalName(node.name)
      case NotPortal =>
      case OutOfRange(ds) =>
        assert nodes[..i + 1][i] == node;
        PrefixFailure(ParsePortalName, lib, model, nodes, i + 1);
        return Failure(BadIndex(ds));
      case PortalName(index, exit) =>
        var mt := Mul(model, node.transform);
        portalLink := portalLink[index := exit];
        portals := portals[index := QuadOfTransform(lib, mt)];
    }
    assert nodes[..|nodes|] == nodes;
    r := Success(LinkTables(portalLink, portals));
  }

  /** Once a prefix of the nodes fails, the whole list fails with the same error. */
  lemma {:induction false} PrefixFailure(parse: string -> NameMatch, lib: MathLib, model: Mat4, nodes: seq<SceneNode>, i: nat)
    requires i <= |nodes| && CollectedBy(parse, lib, model, nodes[..i]).Failure?
    ensures CollectedBy(parse, lib, model, nodes) == CollectedBy(parse, lib, model, nodes[..i])
    decreases |nodes| - i
  {
    if i < |nodes| {
      assert nodes[..i + 1][..i] == nodes[..i];
      PrefixFailure(parse, lib, model, nodes, i + 1);
    } else {
      assert nodes[..i] == nodes;
    }
  }

  /** The portals whose exit index names a collected portal; these are paired. */
  function Linked(t: LinkTables): (s: set<int>)
    ensures s <= t.quads.Keys
  {
    set id | id in t.quads && id in t.link && t.link[id] in t.quads
  }

  /** The portals whose exit is missing; each gets a warning and no entry. */
  function Unlinked(t: LinkTables): (s: set<int>)
    requires t.WellFormed()
    ensures s !! Linked(t) && s + Linked(t) == t.quads.Keys
  {
    set id | id in t.quads && t.link[id] !in t.quads
  }

  /** A one-way link pairs nothing; a mutual link pairs both ends; a self-link pairs one portal. */
  lemma LinkExamples(a: Quad, b: Quad)
    ensures Linked(LinkTables(map[0 := 1], map[0 := a])) == {}
    ensures Unlinked(LinkTables(map[0 := 1], map[0 := a])) == {0}
    ensures Linked(LinkTables(map[0 := 1, 1 := 0], map[0 := a, 1 := b])) == {0, 1}
    ensures Linked(LinkTables(map[3 := 3], map[3 := a])) == {3}
  {
    var t := LinkTables(map[0 := 1], map[0 := a]);
    assert 0 in Unlinked(t);
  }

  // ---------------------------------------------------------------------------
  // Pairing

  /** The exit quad turned half a turn about its up axis, so that it is entered from behind. */
  function FlippedExit(lib: MathLib, exit: Quad): (r: Quad)
    ensures r.center == exit.center && r.scale == exit.scale
  {
    Apply(exit, lib.rotate(Pi, Cross3D(exit.normal, exit.planeV)))
  }

  /**
   * The portal for `quad` with exit `exit`: its event horizon is `quad`, its transform is `BA`
   * of `PortalTransform(quad, flipped exit)` and its portal view is `AZ`.
   */
  function PairPortal(lib: MathLib, quad: Quad, exit: Quad): (r: Result<Portal, Fault>)
    ensures r.Success? <==> Canonical(lib, quad).Success? && Canonical(lib, FlippedExit(lib, exit)).Success?
    ensures r.Success? ==> r.value.eventHorizon == quad && r.value.portalview == Canonical(lib, quad).value
  {
    match PortalTransform(lib, quad, FlippedExit(lib, exit))
    case Failure(e) => Failure(e)
    case Success(t) => Success(Portal(quad, t.ba, t.az))
  }

  /** Every linked portal pairs with its flipped exit, so linking runs to the end. */
  predicate AllPair(lib: MathLib, t: LinkTables) {
    forall id :: id in Linked(t) ==> PairPortal(lib, t.quads[id], t.quads[t.link[id]]).Success?
  }

  /** Every index of `ids` is linked. */
  predicate AllLinked(t: LinkTables, ids: seq<int>) {
    forall k :: 0 <= k < |ids| ==> ids[k] in Linked(t)
  }

  /**
   * The portals paired for the linked indices `ids`, in that order, or the fault of the first
   * pairing that fails.
   */
  function PairAll(lib: MathLib, t: LinkTables, ids: seq<int>): (r: Result<seq<Portal>, Fault>)
    requires AllLinked(t, ids)
    ensures r.Success? ==> |r.value| == |ids|
  {
    if ids == [] then Success([])
    else
      var front, id := ids[..|ids| - 1], ids[|ids| - 1];
      assert AllLinked(t, front) by {
        assert forall k :: 0 <= k < |front| ==> front[k] == ids[k];
      }
      assert id in Linked(t);
      match PairAll(lib, t, front)
      case Failure(e) => Failure(e)
      case Success(ps) =>
        match PairPortal(lib, t.quads[id], t.quads[t.link[id]])
        case Failure(e) => Failure(e)
        case Success(p) => Success(ps + [p])
  }

  /** Pairing a list of indices succeeds exactly when every index pairs, and yields each index's portal at its position. */
  lemma {:induction false} PairAllAt(lib: MathLib, t: LinkTables, ids: seq<int>)
    requires AllLinked(t, ids)
    ensures PairAll(lib, t, ids).Success? <==>
      forall k :: 0 <= k < |ids| ==> PairPortal(lib, t.quads[ids[k]], t.quads[t.link[ids[k]]]).Success?
    ensures PairAll(lib, t, ids).Success? ==>
      forall k :: 0 <= k < |ids| ==> PairPortal(lib, t.quads[ids[k]], t.quads[t.link[ids[k]]]) == Success(PairAll(lib, t, ids).value[k])
  {
    if ids != [] {
      var front, id := ids[..|ids| - 1], ids[|ids| - 1];
      assert forall k :: 0 <= k < |front| ==> front[k] == ids[k];
      assert id in Linked(t);
      PairAllAt(lib, t, front);
      var previous, last := PairAll(lib, t, front), PairPortal(lib, t.quads[id], t.quads[t.link[id]]);
      if previous.Failure? {
        assert PairAll(lib, t, ids).Failure?;
        var k :| 0 <= k < |front| && PairPortal(lib, t.quads[front[k]], t.quads[t.link[front[k]]]).Failure?;
        assert ids[k] == front[k];
      } else if last.Failure? {
        assert PairAll(lib, t, ids).Failure?;
        assert ids[|ids| - 1] == id;
      } else {
        var all := previous.value + [last.value];
        assert PairAll(lib, t, ids) == Success(all);
        forall k | 0 <= k < |ids|
          ensures PairPortal(lib, t.quads[ids[k]], t.quads[t.link[ids[k]]]) == Success(all[k])
        {
          if k < |front| {
            assert ids[k] == front[k] && all[k] == previous.value[k];
          }
        }
      }
    }
  }

  /**
   * Going through the portal lands in the flipped exit's frame: the portal view composed with
   * the portal transform is the flipped exit's canonical transform.
   */
  lemma PairPortalLandsAtExit(lib: MathLib, quad: Quad, exit: Quad)
    requires PairPortal(lib, quad, exit).Success?
    requires InvExact(lib, Canonical(lib, quad).value)
    requires InvExact(lib, Canonical(lib, FlippedExit(lib, exit)).value)
    ensures var p := PairPortal(lib, quad, exit).value;
      Mul(p.portalview, p.transform) == Canonical(lib, FlippedExit(lib, exit)).value
  {
    PortalTransformFrames(lib, quad, FlippedExit(lib, exit));
  }
}
