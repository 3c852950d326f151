/** The layout of the "MuSparse" template built when the analysis task creates its
    outputs: four axes (transverse momentum, pseudorapidity, charge, azimuth),
    each with uniform bin edges and a title of the form "Title (Units)". */
module SparseLayout {
  import opened Aggregates

  /** TMath::Pi() to 16 significant digits (rounding is not modelled). */
  const Pi: real := 3.141592653589793

  /** Number of variables of the sparse histogram, and the slot of each
      variable in a filled vector (the axis order of the template). */
  const NVars: nat := 4
  const HvarPt: nat := 0
  const HvarEta: nat := 1
  const HvarCharge: nat := 2
  const HvarPhi: nat := 3

  const NBins: seq<nat> := [160, 25, 2, 36]
  const XMin: seq<real> := [0.0, -4.5, -2.0, 0.0]
  const XMax: seq<real> := [80.0, -2.0, 2.0, 2.0 * Pi]
  const AxisTitles: seq<string> := ["p_{t}", "#eta", "charge", "#phi"]
  const AxisUnits: seq<string> := ["GeV/c", "", "e", "rad"]

  // ---------------------------------------------------------------------
  // Bin edges
  // ---------------------------------------------------------------------

  /** Edge `i` of `n` uniform bins on [xmin, xmax]. */
  function Edge(xmin: real, xmax: real, n: nat, i: nat): real
    requires n > 0
  {
    xmin + (i as real) * (xmax - xmin) / (n as real)
  }

  /** The n+1 edges of n uniform bins on [xmin, xmax]. */
  function UniformEdges(n: nat, xmin: real, xmax: real): (e: seq<real>)
    requires n > 0
  {
    seq(n + 1, i requires 0 <= i <= n => Edge(xmin, xmax, n, i))
  }

  lemma EdgeEndpoints(n: nat, xmin: real, xmax: real)
    requires n > 0
    ensures Edge(xmin, xmax, n, 0) == xmin
    ensures Edge(xmin, xmax, n, n) == xmax
  {
    var d := xmax - xmin;
    assert (n as real) * d / (n as real) == d;
  }

  /** Consecutive edges are one bin width apart. */
  lemma EdgeSpacing(n: nat, xmin: real, xmax: real, i: nat)
    requires n > 0 && i < n
    ensures Edge(xmin, xmax, n, i + 1) - Edge(xmin, xmax, n, i) == (xmax - xmin) / (n as real)
  {
    var d := xmax - xmin;
    var nr := n as real;
    calc {
      Edge(xmin, xmax, n, i + 1) - Edge(xmin, xmax, n, i);
      ((i + 1) as real) * d / nr - (i as real) * d / nr;
      (((i + 1) as real) * d - (i as real) * d) / nr;
      d / nr;
    }
  }

  /** On a non-empty range the edges strictly increase. */
  lemma EdgesStrictlyIncrease(n: nat, xmin: real, xmax: real, i: nat, j: nat)
    requires n > 0 && xmin < xmax && i < j <= n
    ensures Edge(xmin, xmax, n, i) < Edge(xmin, xmax, n, j)
  {
    var d := xmax - xmin;
    var nr := n as real;
    var gap := (j as real) * d - (i as real) * d;
    assert gap == ((j - i) as real) * d;
    assert gap > 0.0;
    assert (j as real) * d / nr - (i as real) * d / nr == gap / nr;
  }

  /** Fills an array with the n+1 uniform edges of n bins on [xmin, xmax]. */
  method BinEdges(n: nat, xmin: real, xmax: real) returns (a: array<real>)
    requires n > 0
    ensures fresh(a)
    ensures a[..] == UniformEdges(n, xmin, xmax)
  {
    a := new real[n + 1];
    var ibin := 0;
    while ibin <= n
      invariant 0 <= ibin <= n + 1
      invariant forall k :: 0 <= k < ibin ==> a[k] == Edge(xmin, xmax, n, k)
    {
      a[ibin] := xmin + (ibin as real) * (xmax - xmin) / (n as real);
      assert a[ibin] == Edge(xmin, xmax, n, ibin);
      ibin := ibin + 1;
    }
  }

  // ---------------------------------------------------------------------
  // Axis titles
  // ---------------------------------------------------------------------

  /** Replaces, scanning left to right, every non-overlapping occurrence
      of `pat` in `s` by `rep`. */
  function ReplaceAll(s: string, pat: string, rep: string): string
    requires |pat| > 0
    decreases |s|
  {
    if |s| < |pat| then s
    else if s[..|pat|] == pat then rep + ReplaceAll(s[|pat|..], pat, rep)
    else [s[0]] + ReplaceAll(s[1..], pat, rep)
  }

  /** `s` has no "()" in it. */
  predicate NoEmptyParens(s: string)
  {
    forall i :: 0 <= i < |s| - 1 ==> !(s[i] == '(' && s[i + 1] == ')')
  }

  /** The axis title "Title (Units)" with every "()" removed. */
  function AxisTitle(title: string, units: string): string
  {
    ReplaceAll(title + " (" + units + ")", "()", "")
  }

  lemma NoEmptyParensHead(s: string)
    requires NoEmptyParens(s) && |s| >= 2
    ensures s[..2] != "()"
  {
    assert !(s[0] == '(' && s[1] == ')');
  }

  lemma NoEmptyParensTail(s: string)
    requires NoEmptyParens(s) && |s| > 0
    ensures NoEmptyParens(s[1..])
  {
    forall i | 0 <= i < |s[1..]| - 1 ensures !(s[1..][i] == '(' && s[1..][i + 1] == ')') {
      assert s[1..][i] == s[i + 1] && s[1..][i + 1] == s[i + 2];
    }
  }

  /** Removing "()" leaves a string without "()" unchanged. */
  lemma {:induction false} ReplaceAllNoMatch(s: string)
    requires NoEmptyParens(s)
    ensures ReplaceAll(s, "()", "") == s
    decreases |s|
  {
    if |s| >= 2 {
      NoEmptyParensHead(s);
      NoEmptyParensTail(s);
      ReplaceAllNoMatch(s[1..]);
      assert s == [s[0]] + s[1..];
    }
  }

  /** One step of the scan where `s` does not start with "()". */
  lemma ReplaceAllKeep(s: string)
    requires |s| >= 2 && s[..2] != "()"
    ensures ReplaceAll(s, "()", "") == [s[0]] + ReplaceAll(s[1..], "()", "")
  {
  }

  /** A prefix is copied unchanged when it has no "()" in it, also across
      its join with the first character of the text after it. */
  lemma {:induction false} ReplaceAllPrefix(p: string, rest: string)
    requires |rest| > 0 && NoEmptyParens(p + rest[..1])
    ensures ReplaceAll(p + rest, "()", "") == p + ReplaceAll(rest, "()", "")
    decreases |p|
  {
    if |p| > 0 {
      var s := p + rest;
      var j := p + rest[..1];
      NoEmptyParensHead(j);
      assert s[..2] == j[..2];
      ReplaceAllKeep(s);
      assert s[0] == p[0] && s[1..] == p[1..] + rest;
      NoEmptyParensTail(j);
      assert j[1..] == p[1..] + rest[..1];
      ReplaceAllPrefix(p[1..], rest);
      assert [p[0]] + (p[1..] + ReplaceAll(rest, "()", "")) == p + ReplaceAll(rest, "()", "");
    } else {
      assert p + rest == rest;
    }
  }

  /** A title without "()" keeps none when a space is appended. */
  lemma NoEmptyParensSpace(title: string)
    requires NoEmptyParens(title)
    ensures NoEmptyParens(title + " ")
  {
    var j := title + " ";
    forall i | 0 <= i < |j| - 1 ensures !(j[i] == '(' && j[i + 1] == ')') {
      if i + 1 < |title| {
        assert j[i] == title[i] && j[i + 1] == title[i + 1];
      } else {
        assert j[i + 1] == ' ';
      }
    }
  }

  /** The scan turns " ()" into " ". */
  lemma ReplaceAllSpaceParens()
    ensures ReplaceAll(" ()", "()", "") == " "
  {
    var t := " ()";
    assert t[..2] == [' ', '('];
    assert t[..2][0] != "()"[0];
    ReplaceAllKeep(t);
    assert t[1..] == "()";
    assert ReplaceAll("()", "()", "") == "";
  }

  /** Without units the "()" disappears and only "Title " remains, for
      every title without "()" of its own. */
  lemma AxisTitleNoUnits(title: string)
    requires NoEmptyParens(title)
    ensures AxisTitle(title, "") == title + " "
  {
    var t := " ()";
    assert title + " (" + "" + ")" == title + t;
    assert t[..1] == " ";
    NoEmptyParensSpace(title);
    ReplaceAllPrefix(title, t);
    ReplaceAllSpaceParens();
  }

  /** With units and no parentheses in title or units, the title is
      "Title (Units)" exactly. */
  lemma AxisTitleWithUnits(title: string, units: string)
    requires units != ""
    requires forall i :: 0 <= i < |title| ==> title[i] != '(' && title[i] != ')'
    requires forall i :: 0 <= i < |units| ==> units[i] != '(' && units[i] != ')'
    ensures AxisTitle(title, units) == title + " (" + units + ")"
  {
    var s := title + " (" + units + ")";
    forall i | 0 <= i < |s| - 1 ensures !(s[i] == '(' && s[i + 1] == ')') {
      if i < |title| {
        assert s[i] == title[i];
      } else if i == |title| {
        assert s[i] == ' ';
      } else if i == |title| + 1 {
        assert s[i + 1] == units[0];
      } else {
        assert s[i] == units[i - |title| - 2];
      }
    }
    ReplaceAllNoMatch(s);
  }

  // ---------------------------------------------------------------------
  // The template
  // ---------------------------------------------------------------------

  /** Axis `idim` of the template. */
  function TemplateAxis(idim: nat): Axis
    requires idim < NVars
  {
    Axis(AxisTitle(AxisTitles[idim], AxisUnits[idim]), NBins[idim],
         UniformEdges(NBins[idim], XMin[idim], XMax[idim]))
  }

  /** The axes of the "MuSparse" template, in variable order. */
  function SparseTemplate(): seq<Axis>
  {
    seq(NVars, idim requires 0 <= idim < NVars => TemplateAxis(idim))
  }

  /** Builds the template's axes one dimension at a time: the title with
      empty parentheses removed, then the array of uniform edges. */
  method CreateSparseAxes() returns (axes: seq<Axis>)
    ensures axes == SparseTemplate()
  {
    var nbins := NBins;
    var xmin := XMin;
    var xmax := XMax;
    axes := [];
    var idim := 0;
    while idim < NVars
      invariant 0 <= idim <= NVars
      invariant |axes| == idim
      invariant forall k :: 0 <= k < idim ==> axes[k] == TemplateAxis(k)
    {
      var histoTitle := ReplaceAll(AxisTitles[idim] + " (" + AxisUnits[idim] + ")", "()", "");
      var edges := BinEdges(nbins[idim], xmin[idim], xmax[idim]);
      axes := axes + [Axis(histoTitle, nbins[idim], edges[..])];
      idim := idim + 1;
    }
  }

  lemma TemplateTitle(idim: nat)
    requires idim < NVars
    ensures SparseTemplate()[idim].title == AxisTitle(AxisTitles[idim], AxisUnits[idim])
  {
  }

  lemma PtAxisTitle()
    ensures SparseTemplate()[HvarPt].title == "p_{t} (GeV/c)"
  {
    TemplateTitle(HvarPt);
    AxisTitleWithUnits("p_{t}", "GeV/c");
  }

  lemma EtaAxisTitle()
    ensures SparseTemplate()[HvarEta].title == "#eta "
  {
    TemplateTitle(HvarEta);
    AxisTitleNoUnits("#eta");
  }

  lemma ChargeAxisTitle()
    ensures SparseTemplate()[HvarCharge].title == "charge (e)"
  {
    TemplateTitle(HvarCharge);
    AxisTitleWithUnits("charge", "e");
  }

  lemma PhiAxisTitle()
    ensures SparseTemplate()[HvarPhi].title == "#phi (rad)"
  {
    TemplateTitle(HvarPhi);
    AxisTitleWithUnits("#phi", "rad");
  }

  /** Every template axis has n+1 edges running from xmin to xmax. */
  lemma SparseTemplateEdgeEnds(idim: nat)
    requires idim < NVars
    ensures |SparseTemplate()[idim].edges| == NBins[idim] + 1
    ensures SparseTemplate()[idim].edges[0] == XMin[idim]
    ensures SparseTemplate()[idim].edges[NBins[idim]] == XMax[idim]
  {
    EdgeEndpoints(NBins[idim], XMin[idim], XMax[idim]);
  }

  /** The four axes are (pt, eta, charge, phi) with 160/25/2/36 bins, the
      titles of the source, and edges running from xmin to xmax. */
  lemma SparseTemplateLayout()
    ensures |SparseTemplate()| == NVars
    ensures [SparseTemplate()[0].nbins, SparseTemplate()[1].nbins,
             SparseTemplate()[2].nbins, SparseTemplate()[3].nbins] == [160, 25, 2, 36]
    ensures SparseTemplate()[HvarPt].title == "p_{t} (GeV/c)"
    ensures SparseTemplate()[HvarEta].title == "#eta "
    ensures SparseTemplate()[HvarCharge].title == "charge (e)"
    ensures SparseTemplate()[HvarPhi].title == "#phi (rad)"
    ensures forall idim :: 0 <= idim < NVars ==>
      |SparseTemplate()[idim].edges| == NBins[idim] + 1 &&
      SparseTemplate()[idim].edges[0] == XMin[idim] &&
      SparseTemplate()[idim].edges[NBins[idim]] == XMax[idim]
  {
    PtAxisTitle();
    EtaAxisTitle();
    ChargeAxisTitle();
    PhiAxisTitle();
    forall idim | 0 <= idim < NVars
      ensures |SparseTemplate()[idim].edges| == NBins[idim] + 1
      ensures SparseTemplate()[idim].edges[0] == XMin[idim]
      ensures SparseTemplate()[idim].edges[NBins[idim]] == XMax[idim]
    {
      SparseTemplateEdgeEnds(idim);
    }
  }

  /** Every axis of the template has strictly increasing edges. */
  lemma SparseTemplateEdgesIncrease(idim: nat, i: nat, j: nat)
    requires idim < NVars && i < j <= NBins[idim]
    ensures SparseTemplate()[idim].edges[i] < SparseTemplate()[idim].edges[j]
  {
    EdgesStrictlyIncrease(NBins[idim], XMin[idim], XMax[idim], i, j);
  }
}
