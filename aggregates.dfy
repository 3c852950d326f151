/** The statistical accumulators the analysis task stores in its mergeable collection:
    a one-bin counter histogram, one-dimensional histograms, a profile and the
    four-axis sparse histogram. Bin lookup and floating-point contents belong to
    the histogram library; here a fill is counted (and, for the sparse histogram,
    the filled vector is recorded), and the shape (kind, name, binning, axes)
    is kept exactly. */
module Aggregates {

  datatype Option<T> = None | Some(value: T)

  /** One axis of a sparse histogram: its title, bin count and bin edges. */
  datatype Axis = Axis(title: string, nbins: nat, edges: seq<real>)

  datatype Aggregate =
    | Counter(name: string, nbins: nat, lo: real, hi: real, count: nat)
    | Hist1D(name: string, nbins: nat, lo: real, hi: real, entries: nat)
    | Profile(name: string, nbins: nat, lo: real, hi: real, entries: nat)
    | Sparse(name: string, axes: seq<Axis>, samples: seq<seq<real>>)

  /** Number of fills the aggregate has received. */
  function Entries(a: Aggregate): nat
  {
    match a
    case Counter(_, _, _, _, count) => count
    case Hist1D(_, _, _, _, entries) => entries
    case Profile(_, _, _, _, entries) => entries
    case Sparse(_, _, samples) => |samples|
  }

  /** The aggregate's shape: same kind, name and binning, with no contents. */
  function Cleared(a: Aggregate): (r: Aggregate)
    ensures Entries(r) == 0
    ensures r.name == a.name
  {
    match a
    case Counter(name, nbins, lo, hi, _) => Counter(name, nbins, lo, hi, 0)
    case Hist1D(name, nbins, lo, hi, _) => Hist1D(name, nbins, lo, hi, 0)
    case Profile(name, nbins, lo, hi, _) => Profile(name, nbins, lo, hi, 0)
    case Sparse(name, axes, _) => Sparse(name, axes, [])
  }

  /** One fill with unit weight. `x` is the filled value vector; only the
      sparse histogram keeps it (the scalar kinds are counted). */
  function Fill(a: Aggregate, x: seq<real>): (r: Aggregate)
    ensures Entries(r) == Entries(a) + 1
    ensures Cleared(r) == Cleared(a)
    ensures a.Sparse? ==> r.samples == a.samples + [x]
  {
    match a
    case Counter(name, nbins, lo, hi, count) => Counter(name, nbins, lo, hi, count + 1)
    case Hist1D(name, nbins, lo, hi, entries) => Hist1D(name, nbins, lo, hi, entries + 1)
    case Profile(name, nbins, lo, hi, entries) => Profile(name, nbins, lo, hi, entries + 1)
    case Sparse(name, axes, samples) => Sparse(name, axes, samples + [x])
  }
}
