/** The L1 reco muon ntuplizer.  It reads the reco muon block of each event
    of an L1 ntuple and writes one flat ntuple row per muon, with the columns
    N_reco, eta_reco, phi_reco, pt_reco and ch_reco. */
module Ntuplizer {
  import opened Values

  /** The reco muon block of one event, as GetEntry loads it: the muon count
      and one array per kinematic quantity, indexed by muon. */
  datatype RecoMuons = RecoMuons(nMuons: int, pt: seq<Value>, eta: seq<Value>,
                                 phi: seq<Value>, ch: seq<Value>)

  /** Every array holds a value for each of the nMuons muons, which is what
      the tree format guarantees and the ntuplizer relies on when it indexes
      the arrays without a bounds check. */
  predicate WellFormed(m: RecoMuons)
  {
    m.nMuons <= |m.pt| && m.nMuons <= |m.eta| && m.nMuons <= |m.phi| && m.nMuons <= |m.ch|
  }

  predicate AllWellFormed(events: seq<RecoMuons>)
  {
    forall k :: 0 <= k < |events| ==> WellFormed(events[k])
  }

  /** One entry of the input chain: whether LoadTree succeeds on it, and the
      reco muon block GetEntry then loads. */
  datatype TreeEntry = TreeEntry(loadable: bool, muons: RecoMuons)

  /** One float slot of a flat ntuple row.  Unset is a slot never written
      (the row buffer is not initialised); Count is the muon count N, stored
      as a number; Reading is a value copied from the event. */
  datatype Cell = Unset | Count(n: int) | Reading(v: Value)

  type Row = seq<Cell>

  const PhysicsQuantities: seq<string> := ["N", "eta", "phi", "pt", "ch"]
  const ParticleList: seq<string> := ["_reco"]

  /** The columns of the flat ntuple, in order. */
  const StandardColumns: seq<string> := ["N_reco", "eta_reco", "phi_reco", "pt_reco", "ch_reco"]

  // ---------------------------------------------------------------------
  // Column list and descriptor string
  // ---------------------------------------------------------------------

  function Suffixed(name: string, suffixes: seq<string>): seq<string>
  {
    seq(|suffixes|, j requires 0 <= j < |suffixes| => name + suffixes[j])
  }

  /** The column names in nested-loop order: the first name with every
      suffix, then the second name with every suffix, and so on. */
  function Product(names: seq<string>, suffixes: seq<string>): seq<string>
  {
    if names == [] then []
    else Product(names[..|names| - 1], suffixes) + Suffixed(names[|names| - 1], suffixes)
  }

  /** The ntuple's variable-list string: ":" before every column name. */
  function Descriptor(columns: seq<string>): string
  {
    if columns == [] then ""
    else Descriptor(columns[..|columns| - 1]) + ":" + columns[|columns| - 1]
  }

  lemma {:induction false} ProductLength(names: seq<string>, suffixes: seq<string>)
    ensures |Product(names, suffixes)| == |names| * |suffixes|
  {
    if names != [] {
      var n := |names|;
      ProductLength(names[..n - 1], suffixes);
      calc {
        |Product(names, suffixes)|;
        (n - 1) * |suffixes| + |suffixes|;
        n * |suffixes|;
      }
    }
  }

  /** Name i with suffix j sits at position i * |suffixes| + j. */
  lemma {:induction false} ProductAt(names: seq<string>, suffixes: seq<string>, i: int, j: int)
    requires 0 <= i < |names| && 0 <= j < |suffixes|
    ensures |Product(names, suffixes)| == |names| * |suffixes|
    ensures i * |suffixes| + j < |Product(names, suffixes)|
    ensures Product(names, suffixes)[i * |suffixes| + j] == names[i] + suffixes[j]
  {
    var n, width := |names|, |suffixes|;
    var init := names[..n - 1];
    ProductLength(names, suffixes);
    ProductLength(init, suffixes);
    if i < n - 1 {
      ProductAt(init, suffixes, i, j);
      RowMajorBound(i, j, n - 1, width);
    } else {
      assert i * width == (n - 1) * width;
    }
  }

  lemma RowMajorBound(i: nat, j: nat, rows: nat, cols: nat)
    requires i < rows && j < cols
    ensures i * cols + j < rows * cols
  {
    calc {
      i * cols + j;
    <
      (i + 1) * cols;
    <=
      rows * cols;
    }
  }

  /** With the ntuplizer's own lists the product is exactly the five columns. */
  lemma ColumnList()
    ensures Product(PhysicsQuantities, ParticleList) == StandardColumns
  {
    var ps, p := PhysicsQuantities, Product(PhysicsQuantities, ParticleList);
    ProductAt(ps, ParticleList, 0, 0);
    ProductAt(ps, ParticleList, 1, 0);
    ProductAt(ps, ParticleList, 2, 0);
    ProductAt(ps, ParticleList, 3, 0);
    ProductAt(ps, ParticleList, 4, 0);
    assert p[0] == "N" + "_reco" == "N_reco";
    assert p[1] == "eta" + "_reco" == "eta_reco";
    assert p[2] == "phi" + "_reco" == "phi_reco";
    assert p[3] == "pt" + "_reco" == "pt_reco";
    assert p[4] == "ch" + "_reco" == "ch_reco";
  }

  /** No column name contains the separator. */
  predicate ColonFree(columns: seq<string>)
  {
    forall k :: 0 <= k < |columns| ==> ':' !in columns[k]
  }

  /** The descriptor has one colon per column, and starts with one. */
  lemma {:induction false} DescriptorColons(columns: seq<string>)
    requires ColonFree(columns)
    ensures multiset(Descriptor(columns))[':'] == |columns|
    ensures columns != [] ==> |Descriptor(columns)| > 0 && Descriptor(columns)[0] == ':'
  {
    if columns != [] {
      var n := |columns|;
      var init := columns[..n - 1];
      DescriptorColons(init);
      var last := columns[n - 1];
      assert ':' !in last;
      assert multiset(last)[':'] == 0;
      assert Descriptor(columns) == Descriptor(init) + ":" + last;
      assert multiset(Descriptor(columns)) == multiset(Descriptor(init)) + multiset(":") + multiset(last);
      if init != [] {
        assert Descriptor(columns)[0] == Descriptor(init)[0];
      }
    }
  }

  /** The position of the last colon in s, or -1 when there is none. */
  function LastColon(s: string): (k: int)
    ensures -1 <= k < |s|
    ensures k >= 0 ==> s[k] == ':'
  {
    if s == [] then -1
    else if s[|s| - 1] == ':' then |s| - 1
    else LastColon(s[..|s| - 1])
  }

  /** Splits s into the fields between its colons. */
  function Fields(s: string): (r: seq<string>)
    ensures |r| > 0
    decreases |s|
  {
    var k := LastColon(s);
    if k < 0 then [s] else Fields(s[..k]) + [s[k + 1..]]
  }

  /** Splitting the descriptor at its colons gives back an empty leading field
      followed by the columns, in order: the descriptor encodes the column
      list and nothing else. */
  lemma {:induction false} DescriptorFields(columns: seq<string>)
    requires ColonFree(columns)
    ensures Fields(Descriptor(columns)) == [""] + columns
  {
    if columns == [] {
      assert LastColon("") == -1;
    } else {
      var n := |columns|;
      var init := columns[..n - 1];
      var last := columns[n - 1];
      var d := Descriptor(init);
      var s := Descriptor(columns);
      assert s == d + ":" + last;
      LastColonOfJoin(d, last);
      assert s[..|d|] == d;
      assert s[|d| + 1..] == last;
      DescriptorFields(init);
      assert columns == init + [last];
    }
  }

  lemma {:induction false} LastColonOfJoin(d: string, last: string)
    requires ':' !in last
    ensures LastColon(d + ":" + last) == |d|
    decreases |last|
  {
    var s := d + ":" + last;
    if last != [] {
      assert s[|s| - 1] == last[|last| - 1];
      assert s[..|s| - 1] == d + ":" + last[..|last| - 1];
      LastColonOfJoin(d, last[..|last| - 1]);
    }
  }

  // ---------------------------------------------------------------------
  // Which events are processed
  // ---------------------------------------------------------------------

  /** The number of events run processes: all entries when asked for -1 or
      for more than there are, otherwise the requested number (a negative
      request other than -1 is kept, and then nothing is processed). */
  function ClampEvents(nevents: int, entries: nat): (r: int)
    ensures r <= entries
    ensures r == entries || r == nevents
    ensures r >= 0 <==> nevents >= -1
    ensures nevents == -1 || nevents > entries ==> r == entries
    ensures nevents != -1 && nevents <= entries ==> r == nevents
  {
    if nevents == -1 || nevents > entries then entries else nevents
  }

  /** The reco muon blocks of the events processed when at most n events are
      requested: the entries in index order, stopping before the first one
      LoadTree cannot load. */
  function Processed(entries: seq<TreeEntry>, n: int): (r: seq<RecoMuons>)
    ensures |r| <= |entries|
    ensures n <= 0 ==> r == []
    ensures 0 < n ==> |r| <= n
    ensures forall k :: 0 <= k < |r| ==> entries[k].loadable && r[k] == entries[k].muons
    ensures |r| < |entries| && |r| < n ==> !entries[|r|].loadable
    decreases |entries|
  {
    if n <= 0 || entries == [] || !entries[0].loadable then []
    else [entries[0].muons] + Processed(entries[1..], n - 1)
  }

  /** done holds the reco muon blocks of the first |done| entries, all of
      them loadable. */
  predicate LoadedPrefix(entries: seq<TreeEntry>, done: seq<RecoMuons>)
  {
    |done| <= |entries| &&
    forall k :: 0 <= k < |done| ==> entries[k].loadable && done[k] == entries[k].muons
  }

  /** Loading the next entry extends the loaded prefix. */
  lemma LoadedPrefixSnoc(entries: seq<TreeEntry>, done: seq<RecoMuons>)
    requires LoadedPrefix(entries, done) && |done| < |entries| && entries[|done|].loadable
    ensures LoadedPrefix(entries, done + [entries[|done|].muons])
  {
  }

  /** Processed is the one prefix of loadable entries that reaches the
      requested count or stops at an entry that cannot be loaded. */
  lemma ProcessedIsLoadablePrefix(entries: seq<TreeEntry>, n: int, done: seq<RecoMuons>)
    requires LoadedPrefix(entries, done) && (done == [] || |done| <= n)
    requires n <= |done| || |done| == |entries| || !entries[|done|].loadable
    ensures Processed(entries, n) == done
  {
    var p := Processed(entries, n);
    assert |p| == |done|;
  }

  // ---------------------------------------------------------------------
  // Rows
  // ---------------------------------------------------------------------

  /** The value fillNtuple writes into a slot named `name` for muon mu, or
      None when the name is none of the five columns. */
  function FieldCell(name: string, m: RecoMuons, mu: int, marker: int): Option<Cell>
    requires WellFormed(m) && 0 <= mu < m.nMuons
  {
    if name == "N_reco" then Some(Count(marker))
    else if name == "pt_reco" then Some(Reading(m.pt[mu]))
    else if name == "eta_reco" then Some(Reading(m.eta[mu]))
    else if name == "phi_reco" then Some(Reading(m.phi[mu]))
    else if name == "ch_reco" then Some(Reading(m.ch[mu]))
    else None
  }

  /** The row buffer after fillNtuple: every slot whose column has a field is
      overwritten, every other slot keeps what `prior` held. */
  function FilledRow(columns: seq<string>, m: RecoMuons, mu: int, marker: int, prior: Row): Row
    requires WellFormed(m) && 0 <= mu < m.nMuons && |prior| == |columns|
  {
    seq(|columns|, i requires 0 <= i < |columns| =>
      match FieldCell(columns[i], m, mu, marker)
      case Some(c) => c
      case None => prior[i])
  }

  /** The N_reco value of muon mu: the count on the first row, -1 after it. */
  function Marker(mu: int, nMuons: int): int
  {
    if mu == 0 then nMuons else -1
  }

  function Blank(n: nat): Row
  {
    seq(n, _ => Unset)
  }

  function MuonCount(m: RecoMuons): nat
  {
    if m.nMuons < 0 then 0 else m.nMuons
  }

  /** The rows one event adds, in muon-index order. */
  function EventRows(columns: seq<string>, m: RecoMuons): seq<Row>
    requires WellFormed(m)
  {
    seq(MuonCount(m), mu requires 0 <= mu < MuonCount(m) =>
      FilledRow(columns, m, mu, Marker(mu, m.nMuons), Blank(|columns|)))
  }

  /** The rows of a sequence of processed events, event after event. */
  function AllRows(columns: seq<string>, events: seq<RecoMuons>): seq<Row>
    requires AllWellFormed(events)
  {
    if events == [] then []
    else AllRows(columns, events[..|events| - 1]) + EventRows(columns, events[|events| - 1])
  }

  /** One more processed event appends its rows. */
  lemma AllRowsSnoc(columns: seq<string>, events: seq<RecoMuons>, last: RecoMuons)
    requires AllWellFormed(events) && WellFormed(last)
    ensures AllWellFormed(events + [last])
    ensures AllRows(columns, events + [last]) == AllRows(columns, events) + EventRows(columns, last)
  {
    assert (events + [last])[..|events|] == events;
  }

  function TotalMuons(events: seq<RecoMuons>): nat
  {
    if events == [] then 0
    else TotalMuons(events[..|events| - 1]) + MuonCount(events[|events| - 1])
  }

  function NonEmptyEvents(events: seq<RecoMuons>): nat
  {
    if events == [] then 0
    else NonEmptyEvents(events[..|events| - 1]) + (if events[|events| - 1].nMuons > 0 then 1 else 0)
  }

  /** The number of rows whose slot `slot` is anything but Count(-1). */
  function MarkedRows(rows: seq<Row>, slot: nat): nat
  {
    if rows == [] then 0
    else
      var last := rows[|rows| - 1];
      MarkedRows(rows[..|rows| - 1], slot) + (if slot < |last| && last[slot] != Count(-1) then 1 else 0)
  }

  /** The flat ntuple run produces from a chain when nevents are requested. */
  function NtupleRows(entries: seq<TreeEntry>, nevents: int): seq<Row>
    requires forall k :: 0 <= k < |entries| && entries[k].loadable ==> WellFormed(entries[k].muons)
  {
    AllRows(StandardColumns, Processed(entries, ClampEvents(nevents, |entries|)))
  }

  /** Each event adds exactly as many rows as it has muons. */
  lemma {:induction false} RowCount(columns: seq<string>, events: seq<RecoMuons>)
    requires AllWellFormed(events)
    ensures |AllRows(columns, events)| == TotalMuons(events)
  {
    if events != [] {
      RowCount(columns, events[..|events| - 1]);
    }
  }

  /** Muon mu of event j is row TotalMuons(events[..j]) + mu: the events'
      rows follow each other in event order, each in muon order. */
  lemma {:induction false} RowsInOrder(columns: seq<string>, events: seq<RecoMuons>, j: int, mu: int)
    requires AllWellFormed(events) && 0 <= j < |events| && 0 <= mu < events[j].nMuons
    ensures TotalMuons(events[..j]) + mu < |AllRows(columns, events)|
    ensures AllRows(columns, events)[TotalMuons(events[..j]) + mu] == EventRows(columns, events[j])[mu]
  {
    var n := |events|;
    var init := events[..n - 1];
    RowCount(columns, init);
    if j < n - 1 {
      assert events[..j] == init[..j];
      RowsInOrder(columns, init, j, mu);
    } else {
      assert events[..j] == init;
    }
  }

  /** A filled slot is written exactly when its column is one of the five
      the ntuplizer knows; with the ntuplizer's own column list every slot
      of every row is therefore written. */
  lemma FilledSlots(columns: seq<string>, m: RecoMuons, mu: int, marker: int, i: int)
    requires WellFormed(m) && 0 <= mu < m.nMuons && 0 <= i < |columns|
    ensures FilledRow(columns, m, mu, marker, Blank(|columns|))[i] != Unset <==> columns[i] in StandardColumns
  {
  }

  /** The row of muon mu under the ntuplizer's own column list. */
  lemma StandardRow(m: RecoMuons, mu: int, marker: int)
    requires WellFormed(m) && 0 <= mu < m.nMuons
    ensures FilledRow(StandardColumns, m, mu, marker, Blank(5))
         == [Count(marker), Reading(m.eta[mu]), Reading(m.phi[mu]), Reading(m.pt[mu]), Reading(m.ch[mu])]
  {
  }

  lemma {:induction false} MarkedRowsAppend(a: seq<Row>, b: seq<Row>, slot: nat)
    ensures MarkedRows(a + b, slot) == MarkedRows(a, slot) + MarkedRows(b, slot)
    decreases |b|
  {
    if b == [] {
      assert a + b == a;
    } else {
      var b' := b[..|b| - 1];
      assert (a + b)[..|a + b| - 1] == a + b';
      MarkedRowsAppend(a, b', slot);
    }
  }

  /** Within one event only the first row carries a marker other than -1. */
  lemma {:induction false} EventMarkers(columns: seq<string>, m: RecoMuons, slot: nat, k: nat)
    requires WellFormed(m) && slot < |columns| && columns[slot] == "N_reco"
    requires k <= MuonCount(m)
    ensures MarkedRows(EventRows(columns, m)[..k], slot) == if k > 0 then 1 else 0
  {
    var rows := EventRows(columns, m);
    if k > 0 {
      assert rows[..k][..k - 1] == rows[..k - 1];
      EventMarkers(columns, m, slot, k - 1);
      assert rows[k - 1][slot] == Count(Marker(k - 1, m.nMuons));
    }
  }

  /** The rows whose N_reco is not -1 are one per processed event that has
      at least one muon. */
  lemma {:induction false} MarkersCountEvents(columns: seq<string>, events: seq<RecoMuons>, slot: nat)
    requires AllWellFormed(events) && slot < |columns| && columns[slot] == "N_reco"
    ensures MarkedRows(AllRows(columns, events), slot) == NonEmptyEvents(events)
  {
    if events != [] {
      var n := |events|;
      var last := events[n - 1];
      MarkersCountEvents(columns, events[..n - 1], slot);
      MarkedRowsAppend(AllRows(columns, events[..n - 1]), EventRows(columns, last), slot);
      EventMarkers(columns, last, slot, MuonCount(last));
      assert EventRows(columns, last)[..MuonCount(last)] == EventRows(columns, last);
    }
  }

  // ---------------------------------------------------------------------
  // Building the column list
  // ---------------------------------------------------------------------

  /** One more name adds that name's columns to the product. */
  lemma ProductPrefixStep(names: seq<string>, suffixes: seq<string>, a: int)
    requires 0 <= a < |names|
    ensures Product(names[..a + 1], suffixes) == Product(names[..a], suffixes) + Suffixed(names[a], suffixes)
  {
    assert names[..a + 1][..a] == names[..a];
  }

  /** One more suffix adds one column for the name. */
  lemma SuffixedPrefixStep(name: string, suffixes: seq<string>, b: int)
    requires 0 <= b < |suffixes|
    ensures Suffixed(name, suffixes[..b + 1]) == Suffixed(name, suffixes[..b]) + [name + suffixes[b]]
  {
  }

  /** Appending a column appends ":" and its name to the descriptor. */
  lemma DescriptorSnoc(columns: seq<string>, name: string)
    ensures Descriptor(columns + [name]) == Descriptor(columns) + ":" + name
  {
    assert (columns + [name])[..|columns|] == columns;
  }

  /** The nested loop of run that builds the column list and the ntuple's
      variable-list string. */
  method BuildColumns(names: seq<string>, suffixes: seq<string>) returns (contentList: seq<string>, descriptor: string)
    ensures contentList == Product(names, suffixes)
    ensures descriptor == Descriptor(contentList)
  {
    contentList, descriptor := [], "";
    for a := 0 to |names|
      invariant contentList == Product(names[..a], suffixes)
      invariant descriptor == Descriptor(contentList)
    {
      ProductPrefixStep(names, suffixes, a);
      for b := 0 to |suffixes|
        invariant contentList == Product(names[..a], suffixes) + Suffixed(names[a], suffixes[..b])
        invariant descriptor == Descriptor(contentList)
      {
        var quantityName := names[a] + suffixes[b];
        SuffixedPrefixStep(names[a], suffixes, b);
        DescriptorSnoc(contentList, quantityName);
        descriptor := descriptor + ":" + quantityName;
        contentList := contentList + [quantityName];
      }
      assert suffixes[..|suffixes|] == suffixes;
    }
    assert names[..|names|] == names;
  }

  // ---------------------------------------------------------------------
  // The flat ntuple and the ntuplizer
  // ---------------------------------------------------------------------

  /** The output ntuple: its variable-list string and the rows filled so far. */
  class Ntuple {
    const descriptor: string
    var rows: seq<Row>

    constructor (descriptor: string)
      ensures this.descriptor == descriptor && rows == []
    {
      this.descriptor := descriptor;
      rows := [];
    }

    /** Appends the buffer's current contents as one row. */
    method Fill(values: array<Cell>)
      modifies this
      ensures rows == old(rows) + [values[..]]
    {
      rows := rows + [values[..]];
    }
  }

  class L1RecoMuonTreeNtuplizer {
    /** The input chain. */
    const entries: seq<TreeEntry>
    /** The reco muon block of the entry GetEntry loaded last. */
    var recoMuon: RecoMuons
    /** The output ntuple, once run has created it. */
    var ntuple: Ntuple?

    constructor (entries: seq<TreeEntry>, initial: RecoMuons)
      ensures this.entries == entries && recoMuon == initial && ntuple == null
    {
      this.entries := entries;
      recoMuon := initial;
      ntuple := null;
    }

    function GetEntries(): nat
    {
      |entries|
    }

    /** Non-negative exactly when entry i exists and can be loaded. */
    function LoadTree(i: int): (r: int)
      ensures r >= 0 <==> 0 <= i < |entries| && entries[i].loadable
    {
      if 0 <= i < |entries| && entries[i].loadable then i else -2
    }

    method GetEntry(i: int)
      requires 0 <= i < |entries|
      modifies this`recoMuon
      ensures recoMuon == entries[i].muons
    {
      recoMuon := entries[i].muons;
    }

    /** Writes slot varIt of the row buffer with the field its column names,
        read at muon recoMu1; touches nothing but the buffer. */
    method FillNtuple(recoMu1: int, n: int, contentList: seq<string>, ntupleValues: array<Cell>)
      requires WellFormed(recoMuon) && 0 <= recoMu1 < recoMuon.nMuons
      requires ntupleValues.Length == |contentList|
      modifies ntupleValues
      ensures ntupleValues[..] == FilledRow(contentList, recoMuon, recoMu1, n, old(ntupleValues[..]))
    {
      ghost var want := FilledRow(contentList, recoMuon, recoMu1, n, old(ntupleValues[..]));
      for varIt := 0 to |contentList|
        invariant forall i :: 0 <= i < varIt ==> ntupleValues[i] == want[i]
        invariant forall i :: varIt <= i < |contentList| ==> ntupleValues[i] == old(ntupleValues[i])
      {
        if contentList[varIt] == "N_reco" {
          ntupleValues[varIt] := Count(n);
        }
        if contentList[varIt] == "pt_reco" {
          ntupleValues[varIt] := Reading(recoMuon.pt[recoMu1]);
        }
        if contentList[varIt] == "eta_reco" {
          ntupleValues[varIt] := Reading(recoMuon.eta[recoMu1]);
        }
        if contentList[varIt] == "phi_reco" {
          ntupleValues[varIt] := Reading(recoMuon.phi[recoMu1]);
        }
        if contentList[varIt] == "ch_reco" {
          ntupleValues[varIt] := Reading(recoMuon.ch[recoMu1]);
        }
      }
    }

    /** The muon loop of run: one row per muon of the loaded event, each
        filled by fillNtuple and appended to the ntuple. */
    method ProcessEvent(contentList: seq<string>, out: Ntuple)
      requires WellFormed(recoMuon)
      modifies out
      ensures out.rows == old(out.rows) + EventRows(contentList, recoMuon)
    {
      var mu1 := 0;
      while mu1 < recoMuon.nMuons
        invariant 0 <= mu1 <= MuonCount(recoMuon)
        invariant out.rows == old(out.rows) + EventRows(contentList, recoMuon)[..mu1]
      {
        var ntupleValues := new Cell[|contentList|](_ => Unset);
        assert ntupleValues[..] == Blank(|contentList|);
        var n;
        if mu1 == 0 {
          n := recoMuon.nMuons;
        } else {
          n := -1;
        }
        FillNtuple(mu1, n, contentList, ntupleValues);
        out.Fill(ntupleValues);
        assert EventRows(contentList, recoMuon)[..mu1 + 1]
            == EventRows(contentList, recoMuon)[..mu1] + [EventRows(contentList, recoMuon)[mu1]];
        mu1 := mu1 + 1;
      }
      assert EventRows(contentList, recoMuon)[..mu1] == EventRows(contentList, recoMuon);
    }

    /** The event loop of run: events in index order, up to nev of them,
        stopping at the first entry LoadTree cannot load. */
    method LoopOverEvents(nev: int, contentList: seq<string>, out: Ntuple)
      requires nev <= |entries|
      requires forall k :: 0 <= k < |entries| && entries[k].loadable ==> WellFormed(entries[k].muons)
      modifies this`recoMuon, out
      ensures out.rows == old(out.rows) + AllRows(contentList, Processed(entries, nev))
    {
      ghost var done: seq<RecoMuons> := [];
      var i := 0;
      while i < nev
        invariant 0 <= i <= |entries|
        invariant |done| == i && (i == 0 || i <= nev)
        invariant LoadedPrefix(entries, done)
        invariant AllWellFormed(done)
        invariant out.rows == old(out.rows) + AllRows(contentList, done)
      {
        var ientry := LoadTree(i);
        if ientry < 0 {
          break;
        }
        GetEntry(i);
        ProcessEvent(contentList, out);
        AllRowsSnoc(contentList, done, recoMuon);
        LoadedPrefixSnoc(entries, done);
        done := done + [recoMuon];
        i := i + 1;
      }
      ProcessedIsLoadablePrefix(entries, nev, done);
    }

    /** Builds the columns, creates the ntuple, clamps the event count and
        fills one row per muon of every processed event. */
    method Run(nevents: int)
      requires forall k :: 0 <= k < |entries| && entries[k].loadable ==> WellFormed(entries[k].muons)
      modifies this
      ensures ntuple != null && fresh(ntuple)
      ensures ntuple.descriptor == Descriptor(StandardColumns)
      ensures ntuple.rows == NtupleRows(entries, nevents)
    {
      var contentList, ntupleContent := BuildColumns(PhysicsQuantities, ParticleList);
      ColumnList();
      var out := new Ntuple(ntupleContent);
      ntuple := out;

      var nev := nevents;
      if nev == -1 || nev > GetEntries() {
        nev := GetEntries();
      }
      LoopOverEvents(nev, contentList, out);
    }
  }
}
