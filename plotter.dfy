/** The PAT-versus-L1 comparison plotter.  For every plotting variable it
    fills one histogram from the muons of a PAT event collection and one from
    the `<quantity>_reco` column of the L1 reco ntuple, and pairs the two into
    one output file named after the variable's title. */
module Plotter {
  import opened Values
  import Ntuplizer

  /** Bin count, lower and upper edge; carried into the histogram unchanged. */
  datatype Binning = Binning(bins: int, low: real, high: real)

  /** One plotting variable: the quantity key, its binning and the title that
      names both histograms and the output file. */
  datatype PlottingVar = PlottingVar(quantity: string, binning: Binning, title: string)

  /** A PAT muon, through the four accessors the plotter calls. */
  datatype Muon = Muon(pt: Value, eta: Value, phi: Value, ch: Value)

  const EtaLabel: string := "#mbox{#eta}"
  const PhiLabel: string := "#mbox{#phi}"
  const PtLabel: string := "#mbox{p}_{#mbox{T}} #mbox{[GeV/c]}"
  const ChargeLabel: string := "#mbox{Charge}"
  const CountsLabel: string := "Counts"

  // ---------------------------------------------------------------------
  // Quantity dispatch
  // ---------------------------------------------------------------------

  /** The quantity keys the muon accessors cover. */
  predicate HasAccessor(quantity: string)
  {
    quantity == "eta" || quantity == "phi" || quantity == "pt" || quantity == "ch"
  }

  /** The x-axis title makeHistogram gives a quantity. */
  function AxisTitle(quantity: string): string
  {
    if quantity == "eta" then EtaLabel
    else if quantity == "phi" then PhiLabel
    else if quantity == "pt" then PtLabel
    else if quantity == "ch" then ChargeLabel
    else ""
  }

  /** The value the fill loop reads from a muon for a quantity, if any. */
  function Accessor(muon: Muon, quantity: string): Option<Value>
  {
    if quantity == "eta" then Some(muon.eta)
    else if quantity == "phi" then Some(muon.phi)
    else if quantity == "pt" then Some(muon.pt)
    else if quantity == "ch" then Some(muon.ch)
    else None
  }

  /** The axis-title chain and the fill chain cover the same keys: a
      histogram gets a non-empty x-axis title exactly when muons can be
      filled into it. */
  lemma AxisTitleMatchesAccessor(quantity: string, muon: Muon)
    ensures AxisTitle(quantity) != "" <==> HasAccessor(quantity)
    ensures Accessor(muon, quantity).Some? <==> HasAccessor(quantity)
  {
    if HasAccessor(quantity) {
      assert |AxisTitle(quantity)| > 0;
    }
  }

  // ---------------------------------------------------------------------
  // Histograms
  // ---------------------------------------------------------------------

  /** A one-dimensional histogram, kept as the sequence of values filled into
      it together with the settings makeHistogram gives it. */
  class Histogram {
    const name: string
    const binning: Binning
    var minimum: Option<int>
    var xTitle: string
    var yTitle: string
    var fills: seq<Value>

    constructor (name: string, binning: Binning)
      ensures this.name == name && this.binning == binning
      ensures minimum == None && xTitle == "" && yTitle == "" && fills == []
    {
      this.name := name;
      this.binning := binning;
      minimum := None;
      xTitle := "";
      yTitle := "";
      fills := [];
    }

    method SetMinimum(m: int)
      modifies this`minimum
      ensures minimum == Some(m)
    {
      minimum := Some(m);
    }

    method SetXTitle(t: string)
      modifies this`xTitle
      ensures xTitle == t
    {
      xTitle := t;
    }

    method SetYTitle(t: string)
      modifies this`yTitle
      ensures yTitle == t
    {
      yTitle := t;
    }

    method Fill(v: Value)
      modifies this`fills
      ensures fills == old(fills) + [v]
    {
      fills := fills + [v];
    }
  }

  /** The histogram carries the settings makeHistogram gives variable v. */
  predicate Booked(h: Histogram, v: PlottingVar)
    reads h`minimum, h`xTitle, h`yTitle
  {
    h.name == v.title && h.binning == v.binning && h.minimum == Some(0)
    && h.xTitle == AxisTitle(v.quantity) && h.yTitle == CountsLabel
  }

  predicate Distinct(hs: seq<Histogram>)
  {
    forall i, j :: 0 <= i < j < |hs| ==> hs[i] != hs[j]
  }

  method MakeHistogram(title: string, binning: Binning, quantity: string) returns (histo: Histogram)
    ensures fresh(histo)
    ensures Booked(histo, PlottingVar(quantity, binning, title)) && histo.fills == []
  {
    histo := new Histogram(title, binning);
    histo.SetMinimum(0);
    if quantity == "eta" {
      histo.SetXTitle(EtaLabel);
    } else if quantity == "phi" {
      histo.SetXTitle(PhiLabel);
    } else if quantity == "pt" {
      histo.SetXTitle(PtLabel);
    } else if quantity == "ch" {
      histo.SetXTitle(ChargeLabel);
    } else {
      histo.SetXTitle("");
    }
    histo.SetYTitle(CountsLabel);
  }

  // ---------------------------------------------------------------------
  // PAT side: what the fill loop puts into each histogram
  // ---------------------------------------------------------------------

  /** The muons the fill loop visits in one event: indices 0 .. n-2, i.e.
      every muon but the last; none at all when there are fewer than two. */
  function Retained(muons: seq<Muon>): seq<Muon>
  {
    if |muons| <= 1 then [] else muons[..|muons| - 1]
  }

  /** The values a histogram for `quantity` receives from these muons, in
      order: one accessor value per muon when the quantity has an accessor,
      nothing otherwise. */
  function FillsOf(muons: seq<Muon>, quantity: string): seq<Value>
  {
    if muons == [] || !HasAccessor(quantity) then []
    else FillsOf(muons[..|muons| - 1], quantity) + [Accessor(muons[|muons| - 1], quantity).value]
  }

  /** The values the PAT histogram for `quantity` holds after all events. */
  function PatFills(events: seq<seq<Muon>>, quantity: string): seq<Value>
  {
    if events == [] then []
    else PatFills(events[..|events| - 1], quantity) + FillsOf(Retained(events[|events| - 1]), quantity)
  }

  /** The sum over events of max(n - 1, 0). */
  function SkipLastTotal(events: seq<seq<Muon>>): nat
  {
    if events == [] then 0
    else
      var n := |events[|events| - 1]|;
      SkipLastTotal(events[..|events| - 1]) + (if n <= 1 then 0 else n - 1)
  }

  lemma {:induction false} FillsOfAt(muons: seq<Muon>, quantity: string)
    ensures |FillsOf(muons, quantity)| == if HasAccessor(quantity) then |muons| else 0
    ensures HasAccessor(quantity) ==>
      forall k :: 0 <= k < |muons| ==> FillsOf(muons, quantity)[k] == Accessor(muons[k], quantity).value
  {
    if muons != [] && HasAccessor(quantity) {
      FillsOfAt(muons[..|muons| - 1], quantity);
    }
  }

  /** Every histogram whose quantity has an accessor receives one value per
      muon but the last of every event; the others receive nothing. */
  lemma {:induction false} FillCount(events: seq<seq<Muon>>, quantity: string)
    ensures |PatFills(events, quantity)| == if HasAccessor(quantity) then SkipLastTotal(events) else 0
  {
    if events != [] {
      FillCount(events[..|events| - 1], quantity);
      FillsOfAt(Retained(events[|events| - 1]), quantity);
    }
  }

  /** The last muon of an event never reaches a histogram: replacing it by
      any other muon leaves every histogram's contents unchanged. */
  lemma {:induction false} LastMuonIgnored(events: seq<seq<Muon>>, j: int, other: Muon, quantity: string)
    requires 0 <= j < |events| && |events[j]| > 0
    ensures PatFills(events[j := events[j][|events[j]| - 1 := other]], quantity) == PatFills(events, quantity)
  {
    var changed := events[j := events[j][|events[j]| - 1 := other]];
    assert Retained(changed[j]) == Retained(events[j]);
    SameRetainedSameFills(changed, events, quantity);
  }

  /** Only the retained muons of each event matter to the PAT histograms. */
  lemma {:induction false} SameRetainedSameFills(a: seq<seq<Muon>>, b: seq<seq<Muon>>, quantity: string)
    requires |a| == |b|
    requires forall j :: 0 <= j < |a| ==> Retained(a[j]) == Retained(b[j])
    ensures PatFills(a, quantity) == PatFills(b, quantity)
  {
    if a != [] {
      SameRetainedSameFills(a[..|a| - 1], b[..|b| - 1], quantity);
    }
  }

  /** The PAT histograms hold the accessor values of the retained muons of
      the events, event after event: muon k of event j (k < n - 1) is value
      SkipLastTotal(events[..j]) + k. */
  lemma {:induction false} PatFillsAt(events: seq<seq<Muon>>, quantity: string, j: int, k: int)
    requires HasAccessor(quantity) && 0 <= j < |events| && 0 <= k < |events[j]| - 1
    ensures SkipLastTotal(events[..j]) + k < |PatFills(events, quantity)|
    ensures PatFills(events, quantity)[SkipLastTotal(events[..j]) + k] == Accessor(events[j][k], quantity).value
  {
    var pre, mid, post := PatFillsSplit(events, j, quantity);
    FillCount(events[..j], quantity);
    FillsOfAt(Retained(events[j]), quantity);
    assert mid[k] == Accessor(events[j][k], quantity).value;
    IndexInMiddle(pre, mid, post, k);
  }

  /** The PAT fills of a run split around event j. */
  lemma {:induction false} PatFillsSplit(events: seq<seq<Muon>>, j: int, quantity: string)
    returns (pre: seq<Value>, mid: seq<Value>, post: seq<Value>)
    requires 0 <= j < |events|
    ensures pre == PatFills(events[..j], quantity)
    ensures mid == FillsOf(Retained(events[j]), quantity)
    ensures post == PatFills(events[j + 1..], quantity)
    ensures PatFills(events, quantity) == pre + mid + post
  {
    var single: seq<seq<Muon>> := [events[j]];
    assert events == events[..j] + single + events[j + 1..];
    PatFillsAppend(events[..j] + single, events[j + 1..], quantity);
    PatFillsAppend(events[..j], single, quantity);
    assert single[..0] == [];
    pre, mid, post := PatFills(events[..j], quantity), FillsOf(Retained(events[j]), quantity), PatFills(events[j + 1..], quantity);
  }

  // Sequence helpers: generic facts about concatenation and slicing that
  // keep the proofs about PatFills small. They model nothing of their own.

  /** Element k of the middle part of a three-part concatenation. */
  lemma IndexInMiddle<T>(pre: seq<T>, mid: seq<T>, post: seq<T>, k: int)
    requires 0 <= k < |mid|
    ensures |pre| + k < |pre + mid + post| && (pre + mid + post)[|pre| + k] == mid[k]
  {
  }

  /** Concatenation is associative. */
  lemma ConcatAssociative<T>(x: seq<T>, y: seq<T>, z: seq<T>)
    ensures (x + y) + z == x + (y + z)
  {
  }

  /** Dropping the last element of a + b drops it from b. */
  lemma DropLastOfAppend<T>(a: seq<T>, b: seq<T>)
    requires b != []
    ensures (a + b)[..|a + b| - 1] == a + b[..|b| - 1]
    ensures (a + b)[|a + b| - 1] == b[|b| - 1]
  {
  }

  /** The PAT fill loop over a concatenation of event lists fills the
      first list's values, then the second's. */
  lemma {:induction false} PatFillsAppend(a: seq<seq<Muon>>, b: seq<seq<Muon>>, quantity: string)
    ensures PatFills(a + b, quantity) == PatFills(a, quantity) + PatFills(b, quantity)
    decreases |b|
  {
    if b == [] {
      assert a + b == a;
    } else {
      var b', last := b[..|b| - 1], b[|b| - 1];
      PatFillsAppend(a, b', quantity);
      var pa, pb', f := PatFills(a, quantity), PatFills(b', quantity), FillsOf(Retained(last), quantity);
      DropLastOfAppend(a, b);
      assert PatFills(b, quantity) == pb' + f;
      ConcatAssociative(pa, pb', f);
    }
  }

  /** Three events of two, two and three muons give four values to every
      histogram with an accessor. */
  lemma ThreeEventScenario(events: seq<seq<Muon>>, quantity: string)
    requires |events| == 3 && |events[0]| == 2 && |events[1]| == 2 && |events[2]| == 3
    requires HasAccessor(quantity)
    ensures |PatFills(events, quantity)| == 4
  {
    FillCount(events, quantity);
    assert events[..1][..0] == [];
    assert SkipLastTotal(events[..1]) == 1;
    assert events[..2][..1] == events[..1];
    assert SkipLastTotal(events[..2]) == 2;
    assert events[..3] == events;
  }

  /** Events with fewer than two muons contribute nothing. */
  lemma {:induction false} SmallEventsContributeNothing(events: seq<seq<Muon>>, quantity: string)
    requires forall j :: 0 <= j < |events| ==> |events[j]| <= 1
    ensures PatFills(events, quantity) == []
  {
    if events != [] {
      SmallEventsContributeNothing(events[..|events| - 1], quantity);
    }
  }

  /** What one muon adds to a histogram for `quantity`. */
  function OneFill(muon: Muon, quantity: string): seq<Value>
  {
    if HasAccessor(quantity) then [Accessor(muon, quantity).value] else []
  }

  lemma FillsOfSnoc(muons: seq<Muon>, k: int, quantity: string)
    requires 0 <= k < |muons|
    ensures FillsOf(muons[..k + 1], quantity) == FillsOf(muons[..k], quantity) + OneFill(muons[k], quantity)
  {
    assert muons[..k + 1][..k] == muons[..k];
  }

  /** The innermost loop: one muon is offered to every histogram, which takes
      the value of its quantity's accessor, if it has one. */
  method FillMuon(muon: Muon, plottingVariables: seq<PlottingVar>, hists: seq<Histogram>)
    requires |hists| == |plottingVariables| && Distinct(hists)
    modifies hists`fills
    ensures forall i :: 0 <= i < |hists| ==>
      hists[i].fills == old(hists[i].fills) + OneFill(muon, plottingVariables[i].quantity)
  {
    for k := 0 to |hists|
      invariant forall i :: 0 <= i < k ==>
        hists[i].fills == old(hists[i].fills) + OneFill(muon, plottingVariables[i].quantity)
      invariant forall i :: k <= i < |hists| ==> hists[i].fills == old(hists[i].fills)
    {
      var plottingVar, hist := plottingVariables[k], hists[k];
      if plottingVar.quantity == "eta" {
        hist.Fill(muon.eta);
      } else if plottingVar.quantity == "phi" {
        hist.Fill(muon.phi);
      } else if plottingVar.quantity == "pt" {
        hist.Fill(muon.pt);
      } else if plottingVar.quantity == "ch" {
        hist.Fill(muon.ch);
      }
    }
  }

  /** The muon loop of one event: muons 0 .. n-2 are offered in order. */
  method FillEvent(muons: seq<Muon>, plottingVariables: seq<PlottingVar>, hists: seq<Histogram>)
    requires |hists| == |plottingVariables| && Distinct(hists)
    modifies hists`fills
    ensures forall i :: 0 <= i < |hists| ==>
      hists[i].fills == old(hists[i].fills) + FillsOf(Retained(muons), plottingVariables[i].quantity)
  {
    var retained := Retained(muons);
    var numMuons := |muons|;
    var mu := 0;
    while mu < numMuons - 1
      invariant 0 <= mu <= |retained|
      invariant forall i :: 0 <= i < |hists| ==>
        hists[i].fills == old(hists[i].fills) + FillsOf(retained[..mu], plottingVariables[i].quantity)
    {
      var muon := muons[mu];
      assert muon == retained[mu];
      FillMuon(muon, plottingVariables, hists);
      forall i | 0 <= i < |hists|
        ensures hists[i].fills == old(hists[i].fills) + FillsOf(retained[..mu + 1], plottingVariables[i].quantity)
      {
        FillsOfSnoc(retained, mu, plottingVariables[i].quantity);
      }
      mu := mu + 1;
    }
    assert retained[..mu] == retained;
  }

  /** plotMuQuantities_pat: books one histogram per plotting variable, in
      order, then fills them from every event. `events` holds the muon
      collection each event yields for the label. */
  method PlotMuQuantitiesPat(events: seq<seq<Muon>>, plottingVariables: seq<PlottingVar>)
    returns (particleHistograms: seq<Histogram>)
    ensures |particleHistograms| == |plottingVariables| && Distinct(particleHistograms)
    ensures forall k :: 0 <= k < |particleHistograms| ==>
      fresh(particleHistograms[k]) && Booked(particleHistograms[k], plottingVariables[k])
      && particleHistograms[k].fills == PatFills(events, plottingVariables[k].quantity)
  {
    var vars := plottingVariables;
    var hists: seq<Histogram> := [];
    for k := 0 to |vars|
      invariant |hists| == k && Distinct(hists)
      invariant forall i :: 0 <= i < k ==> fresh(hists[i]) && Booked(hists[i], vars[i]) && hists[i].fills == []
    {
      var histo := MakeHistogram(vars[k].title, vars[k].binning, vars[k].quantity);
      hists := hists + [histo];
    }

    for e := 0 to |events|
      invariant forall i :: 0 <= i < |hists| ==> fresh(hists[i]) && Booked(hists[i], vars[i])
      invariant forall i :: 0 <= i < |hists| ==> hists[i].fills == PatFills(events[..e], vars[i].quantity)
    {
      FillEvent(events[e], vars, hists);
      assert events[..e + 1][..e] == events[..e];
    }
    assert events[..|events|] == events;
    particleHistograms := hists;
  }

  // ---------------------------------------------------------------------
  // L1 side
  // ---------------------------------------------------------------------

  /** One call of the ntuple's Project: fill the histogram named `target`
      with expression `varexp` under selection `selection`. */
  datatype Projection = Projection(target: string, varexp: string, selection: string)

  /** The ntuple read from the L1 reco file, through the one call the
      plotter makes on it: the projections asked of it so far, in order. */
  class L1Ntuple {
    var projections: seq<Projection>

    constructor ()
      ensures projections == []
    {
      projections := [];
    }

    method Project(target: string, varexp: string, selection: string)
      modifies this
      ensures projections == old(projections) + [Projection(target, varexp, selection)]
    {
      projections := projections + [Projection(target, varexp, selection)];
    }
  }

  /** The ntuple column the L1 side reads for a quantity. */
  function ColumnName(quantity: string): string
  {
    quantity + "_reco"
  }

  /** The projections plotMuQuantities_l1 asks for: one per plotting
      variable, in order, into the histogram named by its title, of its
      quantity's column, with no selection. */
  function Requests(plottingVariables: seq<PlottingVar>): seq<Projection>
  {
    seq(|plottingVariables|, k requires 0 <= k < |plottingVariables| =>
      Projection(plottingVariables[k].title, ColumnName(plottingVariables[k].quantity), ""))
  }

  /** Distinct quantities read distinct columns. */
  lemma ColumnNameInjective(a: string, b: string)
    requires ColumnName(a) == ColumnName(b)
    ensures a == b
  {
    assert |a| == |b|;
    assert a == ColumnName(a)[..|a|];
    assert b == ColumnName(b)[..|b|];
  }

  /** The column the L1 side reads for a quantity is a column the
      ntuplizer writes exactly when the quantity has an accessor or is the
      muon count N. */
  lemma ColumnProducedByNtuplizer(quantity: string)
    ensures ColumnName(quantity) in Ntuplizer.Product(Ntuplizer.PhysicsQuantities, Ntuplizer.ParticleList)
        <==> HasAccessor(quantity) || quantity == "N"
  {
    Ntuplizer.ColumnList();
    var columns := Ntuplizer.StandardColumns;
    assert ColumnName("N") == "N_reco" && ColumnName("eta") == "eta_reco" && ColumnName("phi") == "phi_reco";
    assert ColumnName("pt") == "pt_reco" && ColumnName("ch") == "ch_reco";
    assert columns == [ColumnName("N"), ColumnName("eta"), ColumnName("phi"), ColumnName("pt"), ColumnName("ch")];
    if ColumnName(quantity) in columns {
      var i :| 0 <= i < 5 && columns[i] == ColumnName(quantity);
      ColumnNameInjective(quantity, ["N", "eta", "phi", "pt", "ch"][i]);
    }
  }

  /** Every projection the L1 side asks for, for variables whose quantity
      has an accessor, reads a column that the ntuplizer writes. */
  lemma RequestsReadNtupleColumns(plottingVariables: seq<PlottingVar>, k: int)
    requires 0 <= k < |plottingVariables| && HasAccessor(plottingVariables[k].quantity)
    ensures Requests(plottingVariables)[k].varexp
         in Ntuplizer.Product(Ntuplizer.PhysicsQuantities, Ntuplizer.ParticleList)
  {
    ColumnProducedByNtuplizer(plottingVariables[k].quantity);
  }

  /** plotMuQuantities_l1: books one histogram per plotting variable, in
      order, and projects its quantity's column into it. */
  method PlotMuQuantitiesL1(ntuple: L1Ntuple, plottingVariables: seq<PlottingVar>)
    returns (particleHistograms: seq<Histogram>)
    modifies ntuple
    ensures |particleHistograms| == |plottingVariables| && Distinct(particleHistograms)
    ensures forall k :: 0 <= k < |particleHistograms| ==>
      fresh(particleHistograms[k]) && Booked(particleHistograms[k], plottingVariables[k])
    ensures ntuple.projections == old(ntuple.projections) + Requests(plottingVariables)
  {
    var vars := plottingVariables;
    var hists: seq<Histogram> := [];
    for k := 0 to |vars|
      invariant |hists| == k && Distinct(hists)
      invariant forall i :: 0 <= i < k ==> fresh(hists[i]) && Booked(hists[i], vars[i])
      invariant ntuple.projections == old(ntuple.projections) + Requests(vars[..k])
    {
      var histo := MakeHistogram(vars[k].title, vars[k].binning, vars[k].quantity);
      ntuple.Project(vars[k].title, vars[k].quantity + "_reco", "");
      assert Requests(vars[..k + 1]) == Requests(vars[..k]) + [Projection(vars[k].title, ColumnName(vars[k].quantity), "")];
      hists := hists + [histo];
    }
    assert vars[..|vars|] == vars;
    particleHistograms := hists;
  }

  // ---------------------------------------------------------------------
  // Pairing and output
  // ---------------------------------------------------------------------

  /** One output: the PAT histogram drawn over the L1 histogram, written to
      `file`. */
  datatype Plot = Plot(pat: Histogram, l1: Histogram, file: string)

  /** The file an output for a plotting variable is written to. */
  function OutputName(title: string): string
  {
    title + ".pdf"
  }

  /** Different titles are written to different files. */
  lemma OutputNameInjective(a: string, b: string)
    requires OutputName(a) == OutputName(b)
    ensures a == b
  {
    assert |a| == |b|;
    assert a == OutputName(a)[..|a|];
    assert b == OutputName(b)[..|b|];
  }

  function Min(a: int, b: int): int
  {
    if a < b then a else b
  }

  /** The zip loop of makeComparisonPlots: the i-th PAT histogram, the i-th
      L1 histogram and the i-th variable make the i-th output, up to the
      shortest of the three lists. */
  method DrawComparisons(patHistograms: seq<Histogram>, l1Histograms: seq<Histogram>,
                         plottingVariables: seq<PlottingVar>)
    returns (plots: seq<Plot>)
    ensures |plots| == Min(|patHistograms|, Min(|l1Histograms|, |plottingVariables|))
    ensures forall i :: 0 <= i < |plots| ==>
      plots[i] == Plot(patHistograms[i], l1Histograms[i], OutputName(plottingVariables[i].title))
  {
    var n := Min(|patHistograms|, Min(|l1Histograms|, |plottingVariables|));
    plots := [];
    for i := 0 to n
      invariant |plots| == i
      invariant forall j :: 0 <= j < i ==>
        plots[j] == Plot(patHistograms[j], l1Histograms[j], OutputName(plottingVariables[j].title))
    {
      plots := plots + [Plot(patHistograms[i], l1Histograms[i], plottingVariables[i].title + ".pdf")];
    }
  }

  /** makeComparisonPlots: fills both sides from the same plotting variables
      and pairs them, so that output i overlays the two histograms of
      variable i and is written to its title plus ".pdf". */
  method MakeComparisonPlots(events: seq<seq<Muon>>, ntuple: L1Ntuple, plottingVariables: seq<PlottingVar>)
    returns (plots: seq<Plot>)
    modifies ntuple
    ensures |plots| == |plottingVariables|
    ensures forall i :: 0 <= i < |plots| ==>
      Booked(plots[i].pat, plottingVariables[i]) && Booked(plots[i].l1, plottingVariables[i])
      && plots[i].pat.fills == PatFills(events, plottingVariables[i].quantity)
      && plots[i].file == OutputName(plottingVariables[i].title)
      && fresh(plots[i].pat) && fresh(plots[i].l1) && plots[i].pat != plots[i].l1
    ensures ntuple.projections == old(ntuple.projections) + Requests(plottingVariables)
  {
    var muonHistsPat := PlotMuQuantitiesPat(events, plottingVariables);
    var muonHistsL1 := PlotMuQuantitiesL1(ntuple, plottingVariables);
    plots := DrawComparisons(muonHistsPat, muonHistsL1, plottingVariables);
  }
}
