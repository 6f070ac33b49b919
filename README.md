# L1 reco muon ntuplizer and PAT/L1 comparison plotter — a Dafny model

This project models the two pieces of authored logic of a small muon
analysis:

- **The L1 reco muon ntuplizer** (`L1RecoMuonTreeNtuplizer.C`). It builds a
  column list from a list of physics quantities and a list of particle
  suffixes, in nested-loop order (`N_reco, eta_reco, phi_reco, pt_reco,
  ch_reco`). It joins the columns into the ntuple's colon-separated variable
  list. It clamps the requested number of events. It then walks the chain's
  events in order, stopping at the first entry `LoadTree` cannot load, and
  writes one flat row per reco muon. `fillNtuple` fills each row slot by the
  name of its column. The `N_reco` slot holds the muon count on an event's
  first row and `-1` on every later row.
- **The PAT/L1 comparison plotter** (`ComparePat2L1RecoTreePlotter.py`).
  `makeHistogram` books a histogram: minimum 0, an x-axis title chosen by
  quantity key, y-axis title `Counts`. The PAT side books one histogram per
  plotting variable and feeds it the muons `0 .. n-2` of every event; the
  last muon is always skipped. The L1 side books one histogram per variable
  and projects the column `<quantity>_reco` into it. `makeComparisonPlots`
  pairs the i-th PAT histogram, the i-th L1 histogram and the i-th variable,
  and writes output `<title>.pdf`.

The two programs meet at the column names: the plotter reads exactly the
`*_reco` columns the ntuplizer writes (`Plotter.ColumnProducedByNtuplizer`).

Layout:

- `values.dfy`, module `Values`: the opaque `Value` type and `Option`.
- `ntuplizer.dfy`, module `Ntuplizer`: the event blocks, the row cells, the
  specification functions (`Product`, `Descriptor`, `ClampEvents`,
  `Processed`, `FilledRow`, `EventRows`, `AllRows`) and their lemmas. It
  also holds the classes `Ntuple` (a growing sequence of rows) and
  `L1RecoMuonTreeNtuplizer` (`Run`, `LoopOverEvents`, `ProcessEvent`, `FillNtuple` as
  imperative methods).
- `plotter.dfy`, module `Plotter`: the plotting variables, PAT muons and the
  `Histogram` class. A histogram is kept as the sequence of values filled
  into it, with no bins. The module also holds the specification of what
  the PAT fill loop puts into each histogram (`PatFills`), the L1
  projection requests (`Requests`), the pairing step, and the imperative
  booking and fill methods.

Modelling choices:

- Kinematic values are an opaque type. They are moved, counted and
  sequenced, never computed with. A flat row slot is a `Cell`: `Count(n)`
  for the muon count, `Reading(v)` for a value copied from the event, or
  `Unset` for a slot nothing wrote. The C++ row buffer is uninitialised, so
  `Unset` stands for whatever it held.
- An input chain is a sequence of `TreeEntry` values. Each entry holds a
  `loadable` flag, which stands in for `LoadTree(i) >= 0`, and the reco muon
  block `GetEntry` loads. `GetEntries()` is the chain's length.
- A PAT event is the muon collection that `getByLabel` yields for it.
- `makeComparisonPlots` reads the PAT events and the L1 ntuple from
  module-level globals. Here they are parameters.

## Model

| member | source | states |
|---|---|---|
| `Ntuplizer.BuildColumns` | L1RecoMuonTreeNtuplizer.C:61-77 | the nested loop yields the column list `Product(names, suffixes)` and the descriptor `Descriptor` of that list |
| `Ntuplizer.ProductLength` | L1RecoMuonTreeNtuplizer.C:69-77 | the column list has one entry per (quantity, suffix) pair |
| `Ntuplizer.ProductAt` | L1RecoMuonTreeNtuplizer.C:69-77 | quantity i with suffix j is column i × (number of suffixes) + j (nested order, outer loop over quantities) |
| `Ntuplizer.ColumnList` | L1RecoMuonTreeNtuplizer.C:61-77 | with the ntuplizer's own lists the columns are exactly `N_reco, eta_reco, phi_reco, pt_reco, ch_reco`, in that order |
| `Ntuplizer.DescriptorColons` | L1RecoMuonTreeNtuplizer.C:73-75 | the descriptor holds one colon per column and starts with a colon |
| `Ntuplizer.DescriptorFields` | L1RecoMuonTreeNtuplizer.C:73-82 | splitting the descriptor at its colons gives an empty leading field followed by the column list, in order |
| `Ntuplizer.ClampEvents` | L1RecoMuonTreeNtuplizer.C:85-87 | the event count is at most the entry count; -1 or more than the entries gives exactly the entry count; any other request is kept unchanged, so other negatives stay negative and the result is non-negative exactly when the request is at least -1 |
| `Ntuplizer.Processed` | L1RecoMuonTreeNtuplizer.C:91-95 | the processed events are a prefix of the chain of length at most the requested count, every one loadable and in index order, ending just before the first unloadable entry when it stops early |
| `Ntuplizer.ProcessedIsLoadablePrefix` | L1RecoMuonTreeNtuplizer.C:91-95 | any prefix of loadable entries that reaches the requested count, the end of the chain or an entry that cannot be loaded is exactly the processed list |
| `Ntuplizer.L1RecoMuonTreeNtuplizer.LoadTree` | L1RecoMuonTreeNtuplizer.C:93-94 | non-negative exactly when the entry exists and can be loaded |
| `Ntuplizer.L1RecoMuonTreeNtuplizer.GetEntry` | L1RecoMuonTreeNtuplizer.C:95 | loads entry i's reco muon block and changes nothing else |
| `Ntuplizer.L1RecoMuonTreeNtuplizer.FillNtuple` | L1RecoMuonTreeNtuplizer.C:122-142 | slot i receives the field its column names at muon `recoMu1` (`N` for `N_reco`); slots with any other name keep their contents; only the buffer is modified |
| `Ntuplizer.FilledSlots` | L1RecoMuonTreeNtuplizer.C:125-141 | a slot of a fresh buffer is written exactly when its column is one of the five known names |
| `Ntuplizer.StandardRow` | L1RecoMuonTreeNtuplizer.C:125-141 | with the ntuplizer's own columns a row is `[N, eta, phi, pt, ch]` of that muon: every slot is written |
| `Ntuplizer.Ntuple.Fill` | L1RecoMuonTreeNtuplizer.C:116 | appends the buffer's contents as one row, after the rows already filled |
| `Ntuplizer.L1RecoMuonTreeNtuplizer.ProcessEvent` | L1RecoMuonTreeNtuplizer.C:104-117 | appends exactly the event's rows `EventRows`: one per muon, in muon order, with marker `nMuons` on the first and `-1` after |
| `Ntuplizer.L1RecoMuonTreeNtuplizer.LoopOverEvents` | L1RecoMuonTreeNtuplizer.C:91-118 | appends the rows of exactly the processed events, in index order, stopping at the first entry that cannot be loaded |
| `Ntuplizer.L1RecoMuonTreeNtuplizer.Run` | L1RecoMuonTreeNtuplizer.C:54-120 | creates a fresh ntuple whose descriptor is that of the five columns and whose rows are `AllRows` over the processed events of the clamped request |
| `Ntuplizer.RowCount` | L1RecoMuonTreeNtuplizer.C:91-117 | the total number of rows is the sum of the processed events' muon counts (negative counts give none) |
| `Ntuplizer.RowsInOrder` | L1RecoMuonTreeNtuplizer.C:91-117 | muon mu of event j is row Σ(muon counts of events before j)+mu: events in index order, muons in index order |
| `Ntuplizer.EventMarkers` | L1RecoMuonTreeNtuplizer.C:107-112 | within one event exactly one row (the first) has an `N_reco` other than -1, and none when the event has no muons |
| `Ntuplizer.MarkersCountEvents` | L1RecoMuonTreeNtuplizer.C:104-117 | the number of rows whose `N_reco` is not -1 equals the number of processed events with at least one muon |
| `Plotter.MakeHistogram` | ComparePat2L1RecoTreePlotter.py:11-29 | a fresh, empty histogram named by the title, with the binning, minimum 0, x-axis title `AxisTitle(quantity)` (eta, phi, pT, charge label, else "") and y-axis title `Counts` |
| `Plotter.Histogram.SetMinimum` | ComparePat2L1RecoTreePlotter.py:14 | sets the histogram minimum and changes no other field |
| `Plotter.Histogram.SetXTitle` | ComparePat2L1RecoTreePlotter.py:15-26 | sets the x-axis title and changes no other field |
| `Plotter.Histogram.SetYTitle` | ComparePat2L1RecoTreePlotter.py:27 | sets the y-axis title and changes no other field |
| `Plotter.AxisTitleMatchesAccessor` | ComparePat2L1RecoTreePlotter.py:15-26 | a histogram gets a non-empty x-axis title exactly when its quantity has a muon accessor, so the title chain and the fill chain cover the same keys |
| `Plotter.FillsOfAt` | ComparePat2L1RecoTreePlotter.py:56-65 | a matched histogram receives one value per visited muon, the one its quantity's accessor returns, in muon order; an unmatched one receives nothing |
| `Plotter.FillCount` | ComparePat2L1RecoTreePlotter.py:45-65 | each matched histogram's fill count is Σ over events of max(n-1, 0); an unmatched histogram's is 0 |
| `Plotter.PatFillsAppend` | ComparePat2L1RecoTreePlotter.py:45-65 | filling over two event lists one after the other gives the first list's values followed by the second's |
| `Plotter.PatFillsSplit` | ComparePat2L1RecoTreePlotter.py:45-65 | the PAT fills are exactly the fills of the events before j, then the values of event j, then the fills of the events after j |
| `Plotter.PatFillsAt` | ComparePat2L1RecoTreePlotter.py:45-65 | value Σ(max(n-1,0) over earlier events)+k of a matched histogram is the accessor value of muon k of event j, for every k < n-1 |
| `Plotter.LastMuonIgnored` | ComparePat2L1RecoTreePlotter.py:54 | replacing the last muon of any event by another muon leaves every PAT histogram unchanged |
| `Plotter.SameRetainedSameFills` | ComparePat2L1RecoTreePlotter.py:45-65 | two runs whose events agree on all muons but the last fill every PAT histogram identically |
| `Plotter.SmallEventsContributeNothing` | ComparePat2L1RecoTreePlotter.py:54 | events with zero or one muon fill nothing |
| `Plotter.ThreeEventScenario` | ComparePat2L1RecoTreePlotter.py:54 | three events of 2, 2 and 3 muons give 4 values to each matched histogram |
| `Plotter.Histogram.Fill` | ComparePat2L1RecoTreePlotter.py:59 | appends one value to the histogram's contents and changes nothing else |
| `Plotter.FillMuon` | ComparePat2L1RecoTreePlotter.py:56-65 | each histogram receives the muon's value for its own quantity, if that quantity has an accessor |
| `Plotter.FillEvent` | ComparePat2L1RecoTreePlotter.py:51-65 | each histogram receives the values of muons 0 .. n-2 of the event, in order |
| `Plotter.PlotMuQuantitiesPat` | ComparePat2L1RecoTreePlotter.py:38-66 | returns one fresh, distinct histogram per plotting variable, in order, booked for that variable and holding `PatFills(events, quantity)` |
| `Plotter.ColumnNameInjective` | ComparePat2L1RecoTreePlotter.py:74 | different quantities read different columns |
| `Plotter.ColumnProducedByNtuplizer` | ComparePat2L1RecoTreePlotter.py:74 | `quantity + "_reco"` is one of the ntuplizer's columns exactly when the quantity is eta, phi, pt, ch or N |
| `Plotter.RequestsReadNtupleColumns` | ComparePat2L1RecoTreePlotter.py:71-76 | every projection asked for a variable with an accessor reads a column the ntuplizer writes |
| `Plotter.L1Ntuple.Project` | ComparePat2L1RecoTreePlotter.py:74 | records one projection request after the earlier ones |
| `Plotter.PlotMuQuantitiesL1` | ComparePat2L1RecoTreePlotter.py:68-76 | returns one fresh, distinct histogram per variable, in order, booked for it, and asks for exactly one projection per variable, in order, of column `quantity_reco` into the histogram of that title, with no selection |
| `Plotter.OutputNameInjective` | ComparePat2L1RecoTreePlotter.py:98 | different titles give different output file names |
| `Plotter.DrawComparisons` | ComparePat2L1RecoTreePlotter.py:89-98 | one output per position up to the shortest list; output i pairs PAT histogram i, L1 histogram i and file `title_i.pdf` |
| `Plotter.MakeComparisonPlots` | ComparePat2L1RecoTreePlotter.py:78-98 | exactly one output per plotting variable; output i overlays two fresh, distinct histograms booked for variable i, the PAT one holding its PAT fills, and goes to `title_i.pdf` |

## Left out

- `toggleBranches`, the output `TFile` and its `Write`, and TNtuple storage. These are ROOT calls whose code is not part of this model. The ntuple is kept as its descriptor string and its rows.
- Progress and diagnostic prints (L1RecoMuonTreeNtuplizer.C:88, 98-102; ComparePat2L1RecoTreePlotter.py:52).
- `Long64_t` and `int` widths: event counts and muon counts are unbounded integers, because no realistic chain reaches the limits.
- The cast of `N` and of the event values to `Float_t`: a `Cell` keeps them exact.
- `Ntuplizer.L1RecoMuonTreeNtuplizer.Run` requires every loadable entry to hold at least `nMuons` values in each array. The C++ indexes the arrays unchecked and relies on the tree format for this.
- `LoadTree` beyond a per-entry loadable flag, and `GetEntry` beyond loading the block.
- `Ntuplizer.L1RecoMuonTreeNtuplizer.GetEntries` is a stub for ROOT's `GetEntries()`: the chain's length, with no contract of its own.
- How `TNtuple` parses its variable-list string, including the leading colon (L1RecoMuonTreeNtuplizer.C:82). ROOT's parser is not part of this model. `Ntuplizer.DescriptorFields` splits the descriptor with the model's own `Fields`, and `Plotter.ColumnProducedByNtuplizer` compares against the column list `contentList`, not against the branch names TNtuple actually creates.
- The event source and `getByLabel`/`product` are not modelled. The PAT side takes each event's muon collection directly, and a missing label is not modelled.
- `Plotter.PlotMuQuantitiesL1`: the bulk semantics of `TTree::Project` are not modelled. The model records which column is projected into which histogram, but not the values the histogram then holds. So the L1 histograms' contents are not stated, nor is their fill count equal to the number of ntuple rows.
- Histogram binning, bin lookup and the floating-point values: a histogram is the sequence of values filled into it. The binning is carried along, not interpreted.
- Rendering: `TCanvas`, line colours, `DrawCopy`, the PDF export itself, `SetBatch`, `gStyle`, `tdrstyle` and the axis title offsets (ComparePat2L1RecoTreePlotter.py:17, 22, 79-82, 93-98). Only the output file name is modelled. The code draws the PAT histogram first and the L1 histogram on top of it with `SAME`.
- `events_noOS.toBegin()` and `events_OSrequired.toBegin()` (ComparePat2L1RecoTreePlotter.py:34-35) name undefined globals and would crash. The fill logic is modelled as if those lines were absent.
- `"Number of muons: " + numMuons` (ComparePat2L1RecoTreePlotter.py:52) adds a string to an int and would crash; it is left out with the other prints.
- `upperRight` (ComparePat2L1RecoTreePlotter.py:121) is undefined, and the legend positions are never used.
- The top-level script wiring with hardcoded paths (ComparePat2L1RecoTreePlotter.py:100-130). This includes the concrete plotting list `[pt, eta]` with its binnings, and the variants that chain several PAT files.
- `muon.ch()`: the PAT muon class offers `charge()`, not `ch()`. The model treats `ch` as an accessor like the others, which is what the code evidently means. The `[pt, eta]` list the script uses never reaches that branch.
- The model keeps the skip of the last muon of every event (ComparePat2L1RecoTreePlotter.py:54) as observed behaviour. Whether the skip is intended cannot be decided from the code.
