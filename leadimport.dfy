/** The lead-import dialog (src/components/leadImportModal.tsx): phone normalisation, the
    list edits (field change, removal with re-indexing, expand toggle), the default pipeline
    selection, validation, grouping by pipeline and the success/failure count of an import.

    A lead is a string-keyed record of strings; the bulk-create request of each group is not
    modelled: its outcome is the set of pipeline ids whose request succeeds. */
module LeadImport {
  import opened Common
  import opened ChatModel

  type Lead = Data

  datatype Pipeline = Pipeline(id: string, name: string, description: Option<string>)

  // ---------------------------------------------------------------------------
  // Phone numbers

  /** `s.replace(/\s+/g, "")`: every JavaScript white-space character removed. */
  function StripSpaces(s: string): (r: string)
    ensures NoSpace(r) && |r| <= |s|
    ensures forall c :: c in r <==> c in s && !IsSpace(c)
  {
    if s == [] then []
    else
      var rest := StripSpaces(s[1..]);
      assert forall c :: c in s <==> c == s[0] || c in s[1..];
      if IsSpace(s[0]) then rest else [s[0]] + rest
  }

  /** Removing spaces distributes over concatenation, so the non-space characters keep their
      order. */
  lemma {:induction false} StripSpacesConcat(a: string, b: string)
    ensures StripSpaces(a + b) == StripSpaces(a) + StripSpaces(b)
    decreases |a|
  {
    if a != [] {
      assert a + b != [] && (a + b)[0] == a[0] && (a + b)[1..] == a[1..] + b;
      StripSpacesConcat(a[1..], b);
      if !IsSpace(a[0]) {
        assert [a[0]] + (StripSpaces(a[1..]) + StripSpaces(b)) == ([a[0]] + StripSpaces(a[1..])) + StripSpaces(b);
      }
    } else {
      assert a + b == b;
    }
  }

  /** A number without spaces is kept as it is. */
  lemma {:induction false} StripSpacesKeeps(s: string)
    requires NoSpace(s)
    ensures StripSpaces(s) == s
    decreases |s|
  {
    if s != [] {
      assert s[0] in s;
      StripSpacesKeeps(s[1..]);
    }
  }

  /** `normalizePhone`: a missing or empty phone becomes "". */
  function NormalizePhone(phone: Option<string>): (r: string)
    ensures !Present(phone) ==> r == ""
    ensures Present(phone) ==> r == StripSpaces(phone.value)
  {
    if Present(phone) then StripSpaces(phone.value) else ""
  }

  /** Normalising twice is normalising once. */
  lemma NormalizePhoneIdempotent(phone: Option<string>)
    ensures NormalizePhone(Some(NormalizePhone(phone))) == NormalizePhone(phone)
  {
    StripSpacesKeeps(NormalizePhone(phone));
  }

  /** `{ ...lead, phone: normalizePhone(lead.phone) }`. */
  function NormalizeLead(lead: Lead): (r: Lead)
    ensures "phone" in r && NoSpace(r["phone"])
    ensures forall key :: key in lead && key != "phone" ==> key in r && r[key] == lead[key]
    ensures r.Keys == lead.Keys + {"phone"}
  {
    lead["phone" := NormalizePhone(Field(lead, "phone"))]
  }

  function NormalizeLeads(leads: seq<Lead>): (r: seq<Lead>)
    ensures |r| == |leads| && forall i :: 0 <= i < |leads| ==> r[i] == NormalizeLead(leads[i])
  {
    seq(|leads|, i requires 0 <= i < |leads| => NormalizeLead(leads[i]))
  }

  // ---------------------------------------------------------------------------
  // Removing a lead and re-indexing

  /** `leads.filter((_, i) => i !== index)`. */
  function RemoveAt<T>(s: seq<T>, k: int): (r: seq<T>)
    ensures !(0 <= k < |s|) ==> r == s
    ensures 0 <= k < |s| ==> |r| == |s| - 1
    ensures 0 <= k < |s| ==> forall i :: 0 <= i < k ==> r[i] == s[i]
    ensures 0 <= k < |s| ==> forall i :: k <= i < |r| ==> r[i] == s[i + 1]
  {
    if 0 <= k < |s| then s[..k] + s[k + 1..] else s
  }

  /** Where index `i` goes when index `k` is removed. */
  function Shift(i: int, k: int): int {
    if i < k then i else i - 1
  }

  /** Some element of a non-empty set of indices. */
  method Pick(s: set<int>) returns (x: int)
    requires s != {}
    ensures x in s
  {
    HasElement(s);
    x :| x in s;
  }

  lemma HasElement(s: set<int>)
    requires s != {}
    ensures exists x :: x in s
  {
    if forall x :: x !in s {
      assert false;
    }
  }

  /** The expanded set after removing index `k`. */
  function ReindexSet(s: set<int>, k: int): set<int> {
    set i | i in s && i != k :: Shift(i, k)
  }

  /** Keys below `k` stay, keys above shift down by one, `k` is dropped. */
  lemma ReindexSetMembership(s: set<int>, k: int, j: int)
    ensures j in ReindexSet(s, k) <==> (j < k && j in s) || (j >= k && j + 1 in s)
  {
    if j < k && j in s { assert Shift(j, k) == j; }
    if j >= k && j + 1 in s { assert Shift(j + 1, k) == j; }
  }

  lemma ReindexSetAdd(d: set<int>, i: int, k: int)
    ensures ReindexSet(d + {i}, k) == ReindexSet(d, k) + (if i == k then {} else {Shift(i, k)})
  {
    var l, r := ReindexSet(d + {i}, k), ReindexSet(d, k) + (if i == k then {} else {Shift(i, k)});
    forall j | j in r ensures j in l {
      if j in ReindexSet(d, k) {
        var x :| x in d && x != k && Shift(x, k) == j;
        assert x in d + {i};
      } else {
        assert i in d + {i};
      }
    }
  }

  /** The `forEach` that rebuilds the expanded set. */
  method ReindexExpanded(s: set<int>, k: int) returns (r: set<int>)
    ensures r == ReindexSet(s, k)
  {
    r := {};
    var rest := s;
    while rest != {}
      invariant rest <= s
      invariant r == ReindexSet(s - rest, k)
      decreases |rest|
    {
      var i := Pick(rest);
      ReindexSetAdd(s - rest, i, k);
      assert s - (rest - {i}) == (s - rest) + {i};
      if i < k {
        r := r + {i};
      } else if i > k {
        r := r + {i - 1};
      }
      rest := rest - {i};
    }
    assert s - rest == s;
  }

  /** The selections of the keys in `d` after removing index `k`. */
  function ReindexOn(m: map<int, string>, d: set<int>, k: int): map<int, string> {
    map i | i in m && i in d && i != k :: Shift(i, k) := m[i]
  }

  /** The selection map after removing index `k`. */
  function ReindexMap(m: map<int, string>, k: int): map<int, string> {
    ReindexOn(m, m.Keys, k)
  }

  lemma ReindexOnEntries(m: map<int, string>, d: set<int>, k: int, j: int)
    ensures j in ReindexOn(m, d, k) <==> (j < k && j in m && j in d) || (j >= k && j + 1 in m && j + 1 in d)
    ensures j < k && j in m && j in d ==> ReindexOn(m, d, k)[j] == m[j]
    ensures j >= k && j + 1 in m && j + 1 in d ==> ReindexOn(m, d, k)[j] == m[j + 1]
  {
    if j < k && j in m && j in d { assert Shift(j, k) == j; }
    if j >= k && j + 1 in m && j + 1 in d { assert Shift(j + 1, k) == j; }
  }

  /** Selections below `k` keep their key, those above move down by one, `k`'s is dropped. */
  lemma ReindexMapEntries(m: map<int, string>, k: int, j: int)
    ensures j in ReindexMap(m, k) <==> (j < k && j in m) || (j >= k && j + 1 in m)
    ensures j < k && j in m ==> ReindexMap(m, k)[j] == m[j]
    ensures j >= k && j + 1 in m ==> ReindexMap(m, k)[j] == m[j + 1]
  {
    ReindexOnEntries(m, m.Keys, k, j);
  }

  lemma ReindexOnSkip(m: map<int, string>, d: set<int>, k: int)
    ensures ReindexOn(m, d + {k}, k) == ReindexOn(m, d, k)
  {
    var l, r := ReindexOn(m, d + {k}, k), ReindexOn(m, d, k);
    forall j ensures (j in l <==> j in r) && (j in l ==> l[j] == r[j]) {
      ReindexOnEntries(m, d + {k}, k, j);
      ReindexOnEntries(m, d, k, j);
    }
  }

  lemma ReindexOnAdd(m: map<int, string>, d: set<int>, i: int, k: int)
    requires i in m && i !in d && i != k
    ensures ReindexOn(m, d + {i}, k) == ReindexOn(m, d, k)[Shift(i, k) := m[i]]
  {
    var l, r := ReindexOn(m, d + {i}, k), ReindexOn(m, d, k)[Shift(i, k) := m[i]];
    forall j ensures (j in l <==> j in r) && (j in l ==> l[j] == r[j]) {
      ReindexOnEntries(m, d + {i}, k, j);
      ReindexOnEntries(m, d, k, j);
    }
  }

  /** The `Object.entries(...).forEach` that rebuilds the selections. */
  method ReindexSelections(m: map<int, string>, k: int) returns (r: map<int, string>)
    ensures r == ReindexMap(m, k)
  {
    r := map[];
    var rest := m.Keys;
    assert ReindexOn(m, m.Keys - rest, k) == map[];
    while rest != {}
      invariant rest <= m.Keys
      invariant r == ReindexOn(m, m.Keys - rest, k)
      decreases |rest|
    {
      var i := Pick(rest);
      assert m.Keys - (rest - {i}) == (m.Keys - rest) + {i};
      if i == k {
        ReindexOnSkip(m, m.Keys - rest, k);
      } else {
        ReindexOnAdd(m, m.Keys - rest, i, k);
      }
      if i < k {
        r := r[i := m[i]];
      } else if i > k {
        r := r[i - 1 := m[i]];
      }
      rest := rest - {i};
    }
    assert m.Keys - rest == m.Keys;
  }

  /** `toggleExpand(i)`. */
  function ToggleExpand(s: set<int>, i: int): (r: set<int>)
    ensures i in r <==> i !in s
    ensures forall j :: j != i ==> (j in r <==> j in s)
  {
    if i in s then s - {i} else s + {i}
  }

  /** Toggling twice restores the set. */
  lemma ToggleTwice(s: set<int>, i: int)
    ensures ToggleExpand(ToggleExpand(s, i), i) == s
  {
  }

  // ---------------------------------------------------------------------------
  // Default pipelines

  /** Every index below `n` mapped to `v`. */
  function AllTo(n: nat, v: string): (r: map<int, string>)
    ensures forall i :: i in r <==> 0 <= i < n
    ensures forall i :: i in r ==> r[i] == v
  {
    if n == 0 then map[] else AllTo(n - 1, v)[n - 1 := v]
  }

  /** The default-pipeline effect's updater; it runs only when pipelines and leads exist. */
  function DefaultSelections(prev: map<int, string>, pipelines: seq<Pipeline>, n: nat): (r: map<int, string>)
    ensures (pipelines == [] || n == 0 || |prev| > 0) ==> r == prev
    ensures pipelines != [] && n > 0 && |prev| == 0 ==>
      (forall i :: i in r <==> 0 <= i < n) && (forall i :: i in r ==> r[i] == pipelines[0].id)
  {
    if pipelines != [] && n > 0 && |prev| == 0 then AllTo(n, pipelines[0].id) else prev
  }

  /** The `leads.forEach` that fills `defaults`. */
  method FillDefaults(n: nat, first: string) returns (defaults: map<int, string>)
    ensures defaults == AllTo(n, first)
  {
    defaults := map[];
    for i := 0 to n
      invariant defaults == AllTo(i, first)
    {
      defaults := defaults[i := first];
    }
  }

  method ApplyDefaults(prev: map<int, string>, pipelines: seq<Pipeline>, n: nat) returns (r: map<int, string>)
    ensures r == DefaultSelections(prev, pipelines, n)
  {
    if pipelines != [] && n > 0 && |prev| == 0 {
      r := FillDefaults(n, pipelines[0].id);
    } else {
      r := prev;
    }
  }

  // ---------------------------------------------------------------------------
  // Validation

  /** A lead index has a pipeline when its selection exists and is not empty. */
  predicate HasPipeline(sel: map<int, string>, i: int) {
    i in sel && sel[i] != ""
  }

  /** The indices below `n` without a pipeline, in order. */
  function MissingPipelines(sel: map<int, string>, n: nat): (r: seq<nat>)
    ensures forall i :: i in r <==> 0 <= i < n && !HasPipeline(sel, i)
    ensures |r| <= n
  {
    if n == 0 then []
    else MissingPipelines(sel, n - 1) + (if HasPipeline(sel, n - 1) then [] else [n - 1])
  }

  /** The indices of the leads whose phone is missing or empty, in order. */
  function MissingPhones(leads: seq<Lead>): (r: seq<nat>)
    ensures forall i :: i in r <==> 0 <= i < |leads| && !Present(Field(leads[i], "phone"))
    ensures |r| <= |leads|
  {
    if leads == [] then []
    else
      var front := leads[..|leads| - 1];
      assert forall i :: 0 <= i < |front| ==> front[i] == leads[i];
      MissingPhones(front) + (if Present(Field(leads[|leads| - 1], "phone")) then [] else [|leads| - 1])
  }

  datatype Check = Ready | NoPipeline(missing: nat) | NoPhone(missing: nat)

  /** The checks of `handleImportClick`, pipelines first. */
  function Validate(leads: seq<Lead>, sel: map<int, string>): (c: Check)
    ensures c.NoPipeline? <==> exists i :: 0 <= i < |leads| && !HasPipeline(sel, i)
    ensures c.NoPhone? <==> (forall i :: 0 <= i < |leads| ==> HasPipeline(sel, i))
                            && exists i :: 0 <= i < |leads| && !Present(Field(leads[i], "phone"))
    ensures c.Ready? ==> forall i :: 0 <= i < |leads| ==> HasPipeline(sel, i) && Present(Field(leads[i], "phone"))
    ensures c.Ready? ==> forall i :: 0 <= i < |leads| ==> i in sel
    ensures c.NoPipeline? ==> c.missing == |MissingPipelines(sel, |leads|)| > 0
    ensures c.NoPhone? ==> c.missing == |MissingPhones(leads)| > 0
  {
    var noPipeline := MissingPipelines(sel, |leads|);
    var noPhone := MissingPhones(leads);
    if |noPipeline| > 0 then
      assert noPipeline[0] in noPipeline;
      NoPipeline(|noPipeline|)
    else if |noPhone| > 0 then
      assert noPhone[0] in noPhone;
      NoPhone(|noPhone|)
    else
      assert forall i :: 0 <= i < |leads| ==> i !in noPipeline && i !in noPhone && HasPipeline(sel, i) && i in sel;
      Ready
  }

  // ---------------------------------------------------------------------------
  // Grouping by pipeline

  datatype Group = Group(pipelineId: string, leads: seq<Lead>, indices: seq<nat>)

  /** The group keyed by `pid`, if one exists. */
  function FindGroup(groups: seq<Group>, pid: string): (r: Option<nat>)
    ensures r.Some? ==> r.value < |groups| && groups[r.value].pipelineId == pid
    ensures r.None? ==> forall g :: 0 <= g < |groups| ==> groups[g].pipelineId != pid
  {
    FindBelow(groups, pid, |groups|)
  }

  /** The last group below `k` keyed by `pid`. */
  function FindBelow(groups: seq<Group>, pid: string, k: nat): (r: Option<nat>)
    requires k <= |groups|
    ensures r.Some? ==> r.value < k && groups[r.value].pipelineId == pid
    ensures r.None? ==> forall g :: 0 <= g < k ==> groups[g].pipelineId != pid
    decreases k
  {
    if k == 0 then None
    else if groups[k - 1].pipelineId == pid then Some(k - 1)
    else FindBelow(groups, pid, k - 1)
  }

  /** One step of the grouping `forEach`: lead `i` joins its pipeline's group, created at the
      end when the pipeline is new. */
  function AddToGroup(groups: seq<Group>, pid: string, lead: Lead, i: nat): seq<Group> {
    match FindGroup(groups, pid)
    case None => groups + [Group(pid, [lead], [i])]
    case Some(g) => groups[g := Extend(groups[g], lead, i)]
  }

  /** A group with lead `i` pushed onto its leads and indices. */
  function Extend(group: Group, lead: Lead, i: nat): Group {
    group.(leads := group.leads + [lead], indices := group.indices + [i])
  }

  /** The groups of the first `n` leads. */
  function Grouped(leads: seq<Lead>, sel: map<int, string>, n: nat): seq<Group>
    requires n <= |leads| && forall i :: 0 <= i < n ==> i in sel
  {
    if n == 0 then [] else AddToGroup(Grouped(leads, sel, n - 1), sel[n - 1], leads[n - 1], n - 1)
  }

  /** No two groups share a pipeline. */
  ghost predicate DistinctIds(groups: seq<Group>) {
    forall g, h :: 0 <= g < h < |groups| ==> groups[g].pipelineId != groups[h].pipelineId
  }

  /** Each group has as many leads as indices, and at least one. */
  ghost predicate Aligned(groups: seq<Group>) {
    forall g :: 0 <= g < |groups| ==> |groups[g].leads| == |groups[g].indices| && groups[g].indices != []
  }

  /** Each entry is lead `indices[p]` of the first `n`, selected for the group's pipeline. */
  ghost predicate Members(groups: seq<Group>, leads: seq<Lead>, sel: map<int, string>, n: nat)
    requires Aligned(groups)
  {
    forall g, p :: 0 <= g < |groups| && 0 <= p < |groups[g].indices| ==>
      groups[g].indices[p] < n && groups[g].indices[p] < |leads| && groups[g].indices[p] in sel
      && sel[groups[g].indices[p]] == groups[g].pipelineId
      && groups[g].leads[p] == leads[groups[g].indices[p]]
  }

  /** Inside a group the leads keep their input order. */
  ghost predicate Ascending(groups: seq<Group>) {
    forall g, p, q :: 0 <= g < |groups| && 0 <= p < q < |groups[g].indices| ==>
      groups[g].indices[p] < groups[g].indices[q]
  }

  /** Groups come in the order of their first lead. */
  ghost predicate FirstOrder(groups: seq<Group>)
    requires Aligned(groups)
  {
    forall g, h :: 0 <= g < h < |groups| ==> groups[g].indices[0] < groups[h].indices[0]
  }

  /** Lead `i` sits in one of the groups. */
  ghost predicate Placed(groups: seq<Group>, i: nat) {
    exists g, p :: 0 <= g < |groups| && 0 <= p < |groups[g].indices| && groups[g].indices[p] == i
  }

  /** The groups partition the first `n` leads: distinct pipelines, each group in input order
      with the leads whose selection is its pipeline, groups in order of first appearance, and
      every lead placed. */
  ghost predicate Partition(groups: seq<Group>, leads: seq<Lead>, sel: map<int, string>, n: nat) {
    DistinctIds(groups) && Aligned(groups) && Members(groups, leads, sel, n) && Ascending(groups)
    && FirstOrder(groups) && forall i :: 0 <= i < n ==> Placed(groups, i)
  }

  lemma AddNewGroup(groups: seq<Group>, leads: seq<Lead>, sel: map<int, string>, n: nat)
    requires n < |leads| && n in sel && Partition(groups, leads, sel, n)
    requires FindGroup(groups, sel[n]).None?
    ensures Partition(groups + [Group(sel[n], [leads[n]], [n])], leads, sel, n + 1)
  {
    var x := Group(sel[n], [leads[n]], [n]);
    NewDistinct(groups, x);
    NewAligned(groups, x);
    NewMembers(groups, leads, sel, n);
    NewAscending(groups, x);
    NewFirstOrder(groups, leads, sel, n);
    NewPlaced(groups, x, n);
  }

  lemma NewDistinct(groups: seq<Group>, x: Group)
    requires DistinctIds(groups) && forall g :: 0 <= g < |groups| ==> groups[g].pipelineId != x.pipelineId
    ensures DistinctIds(groups + [x])
  {
    var r := groups + [x];
    assert forall g :: 0 <= g < |groups| ==> r[g] == groups[g];
  }

  lemma NewAligned(groups: seq<Group>, x: Group)
    requires Aligned(groups) && |x.leads| == |x.indices| && x.indices != []
    ensures Aligned(groups + [x])
  {
    var r := groups + [x];
    assert forall g :: 0 <= g < |groups| ==> r[g] == groups[g];
  }

  lemma NewMembers(groups: seq<Group>, leads: seq<Lead>, sel: map<int, string>, n: nat)
    requires n < |leads| && n in sel && Aligned(groups) && Members(groups, leads, sel, n)
    ensures Aligned(groups + [Group(sel[n], [leads[n]], [n])])
    ensures Members(groups + [Group(sel[n], [leads[n]], [n])], leads, sel, n + 1)
  {
    var r := groups + [Group(sel[n], [leads[n]], [n])];
    NewAligned(groups, Group(sel[n], [leads[n]], [n]));
    assert forall g :: 0 <= g < |groups| ==> r[g] == groups[g];
  }

  lemma NewAscending(groups: seq<Group>, x: Group)
    requires Ascending(groups) && |x.indices| == 1
    ensures Ascending(groups + [x])
  {
    var r := groups + [x];
    assert forall g :: 0 <= g < |groups| ==> r[g] == groups[g];
  }

  lemma NewFirstOrder(groups: seq<Group>, leads: seq<Lead>, sel: map<int, string>, n: nat)
    requires n < |leads| && n in sel && Aligned(groups) && Members(groups, leads, sel, n)
    requires FirstOrder(groups)
    ensures Aligned(groups + [Group(sel[n], [leads[n]], [n])])
    ensures FirstOrder(groups + [Group(sel[n], [leads[n]], [n])])
  {
    var r := groups + [Group(sel[n], [leads[n]], [n])];
    NewAligned(groups, Group(sel[n], [leads[n]], [n]));
    assert forall g :: 0 <= g < |groups| ==> r[g] == groups[g];
    forall g | 0 <= g < |groups| ensures groups[g].indices[0] < n {
      assert groups[g].indices[0] < n;
    }
  }

  lemma NewPlaced(groups: seq<Group>, x: Group, n: nat)
    requires forall i :: 0 <= i < n ==> Placed(groups, i)
    requires x.indices == [n]
    ensures forall i :: 0 <= i < n + 1 ==> Placed(groups + [x], i)
  {
    var r := groups + [x];
    forall i | 0 <= i < n + 1 ensures Placed(r, i) {
      if i < n {
        assert Placed(groups, i);
        var g, p :| 0 <= g < |groups| && 0 <= p < |groups[g].indices| && groups[g].indices[p] == i;
        assert r[g] == groups[g];
      } else {
        assert r[|groups|].indices[0] == i;
      }
    }
  }

  lemma AddToExisting(groups: seq<Group>, leads: seq<Lead>, sel: map<int, string>, n: nat, k: nat)
    requires n < |leads| && n in sel && Partition(groups, leads, sel, n)
    requires k < |groups| && groups[k].pipelineId == sel[n]
    ensures Partition(groups[k := Extend(groups[k], leads[n], n)], leads, sel, n + 1)
  {
    ExtendDistinct(groups, k, leads[n], n);
    ExtendAligned(groups, k, leads[n], n);
    ExtendMembers(groups, leads, sel, n, k);
    ExtendAscending(groups, leads, sel, n, k);
    ExtendFirstOrder(groups, k, leads[n], n);
    ExtendPlaced(groups, k, leads[n], n, groups[k := Extend(groups[k], leads[n], n)]);
  }

  lemma ExtendDistinct(groups: seq<Group>, k: nat, lead: Lead, n: nat)
    requires k < |groups| && DistinctIds(groups)
    ensures DistinctIds(groups[k := Extend(groups[k], lead, n)])
  {
    var r := groups[k := Extend(groups[k], lead, n)];
    assert forall g :: 0 <= g < |groups| ==> r[g].pipelineId == groups[g].pipelineId;
  }

  lemma ExtendAligned(groups: seq<Group>, k: nat, lead: Lead, n: nat)
    requires k < |groups| && Aligned(groups)
    ensures Aligned(groups[k := Extend(groups[k], lead, n)])
  {
    var r := groups[k := Extend(groups[k], lead, n)];
    assert forall g :: 0 <= g < |groups| && g != k ==> r[g] == groups[g];
  }

  lemma ExtendMembers(groups: seq<Group>, leads: seq<Lead>, sel: map<int, string>, n: nat, k: nat)
    requires n < |leads| && n in sel && Aligned(groups) && Members(groups, leads, sel, n)
    requires k < |groups| && groups[k].pipelineId == sel[n]
    ensures Aligned(groups[k := Extend(groups[k], leads[n], n)])
    ensures Members(groups[k := Extend(groups[k], leads[n], n)], leads, sel, n + 1)
  {
    var old_ := groups[k];
    var x := Extend(old_, leads[n], n);
    var r := groups[k := x];
    ExtendAligned(groups, k, leads[n], n);
    assert forall g :: 0 <= g < |groups| && g != k ==> r[g] == groups[g];
    assert forall p :: 0 <= p < |old_.indices| ==> x.indices[p] == old_.indices[p] && x.leads[p] == old_.leads[p];
    assert x.indices[|old_.indices|] == n && x.leads[|old_.indices|] == leads[n];
  }

  lemma ExtendAscending(groups: seq<Group>, leads: seq<Lead>, sel: map<int, string>, n: nat, k: nat)
    requires n < |leads| && Aligned(groups) && Members(groups, leads, sel, n) && Ascending(groups)
    requires k < |groups|
    ensures Ascending(groups[k := Extend(groups[k], leads[n], n)])
  {
    var old_ := groups[k];
    var x := Extend(old_, leads[n], n);
    var r := groups[k := x];
    assert forall g :: 0 <= g < |groups| && g != k ==> r[g] == groups[g];
    assert forall p :: 0 <= p < |old_.indices| ==> x.indices[p] == old_.indices[p];
    forall p | 0 <= p < |old_.indices| ensures old_.indices[p] < n {
      assert old_.indices[p] < n;
    }
  }

  lemma ExtendFirstOrder(groups: seq<Group>, k: nat, lead: Lead, n: nat)
    requires k < |groups| && Aligned(groups) && FirstOrder(groups)
    ensures Aligned(groups[k := Extend(groups[k], lead, n)])
    ensures FirstOrder(groups[k := Extend(groups[k], lead, n)])
  {
    var r := groups[k := Extend(groups[k], lead, n)];
    ExtendAligned(groups, k, lead, n);
    assert forall g :: 0 <= g < |groups| ==> r[g].indices[0] == groups[g].indices[0];
  }

  lemma ExtendPlaced(groups: seq<Group>, k: nat, lead: Lead, n: nat, r: seq<Group>)
    requires k < |groups| && forall i :: 0 <= i < n ==> Placed(groups, i)
    requires r == groups[k := Extend(groups[k], lead, n)]
    ensures forall i :: 0 <= i < n + 1 ==> Placed(r, i)
  {
    var old_ := groups[k];
    forall i | 0 <= i < n + 1 ensures Placed(r, i) {
      if i < n {
        assert Placed(groups, i);
        var g, p :| 0 <= g < |groups| && 0 <= p < |groups[g].indices| && groups[g].indices[p] == i;
        assert r[g].indices[p] == i;
      } else {
        assert r[k].indices[|old_.indices|] == i;
      }
    }
  }

  lemma AddKeepsPartition(groups: seq<Group>, leads: seq<Lead>, sel: map<int, string>, n: nat)
    requires n < |leads| && n in sel && Partition(groups, leads, sel, n)
    ensures Partition(AddToGroup(groups, sel[n], leads[n], n), leads, sel, n + 1)
  {
    match FindGroup(groups, sel[n])
    case None => AddNewGroup(groups, leads, sel, n);
    case Some(k) => AddToExisting(groups, leads, sel, n, k);
  }

  lemma {:induction false} GroupedIsPartition(leads: seq<Lead>, sel: map<int, string>, n: nat)
    requires n <= |leads| && forall i :: 0 <= i < n ==> i in sel
    ensures Partition(Grouped(leads, sel, n), leads, sel, n)
    decreases n
  {
    if n > 0 {
      GroupedUnfold(leads, sel, n);
      GroupedIsPartition(leads, sel, n - 1);
      PartitionAfterAdd(Grouped(leads, sel, n), Grouped(leads, sel, n - 1), leads, sel, n - 1);
    }
  }

  lemma GroupedUnfold(leads: seq<Lead>, sel: map<int, string>, n: nat)
    requires 0 < n <= |leads| && forall i :: 0 <= i < n ==> i in sel
    ensures Grouped(leads, sel, n) == AddToGroup(Grouped(leads, sel, n - 1), sel[n - 1], leads[n - 1], n - 1)
  {
  }

  lemma PartitionAfterAdd(r: seq<Group>, groups: seq<Group>, leads: seq<Lead>, sel: map<int, string>, n: nat)
    requires n < |leads| && n in sel && Partition(groups, leads, sel, n)
    requires r == AddToGroup(groups, sel[n], leads[n], n)
    ensures Partition(r, leads, sel, n + 1)
  {
    AddKeepsPartition(groups, leads, sel, n);
  }

  /** Every lead is in exactly one group, at exactly one position. */
  lemma PlacedOnce(groups: seq<Group>, leads: seq<Lead>, sel: map<int, string>, n: nat,
                   g: nat, p: nat, h: nat, q: nat)
    requires Partition(groups, leads, sel, n)
    requires g < |groups| && p < |groups[g].indices| && h < |groups| && q < |groups[h].indices|
    requires groups[g].indices[p] == groups[h].indices[q]
    ensures g == h && p == q
  {
  }

  /** The `leads.forEach` that fills `leadsByPipeline`. */
  method GroupLeads(leads: seq<Lead>, sel: map<int, string>) returns (groups: seq<Group>)
    requires forall i :: 0 <= i < |leads| ==> i in sel
    ensures groups == Grouped(leads, sel, |leads|)
  {
    groups := [];
    for i := 0 to |leads|
      invariant groups == Grouped(leads, sel, i)
    {
      groups := AddLead(groups, sel[i], leads[i], i);
    }
  }

  /** The loop body: a new pipeline gets an empty entry first, then the lead is pushed onto
      its pipeline's entry. */
  method AddLead(groups: seq<Group>, pid: string, lead: Lead, i: nat) returns (r: seq<Group>)
    ensures r == AddToGroup(groups, pid, lead, i)
  {
    var found := FindGroup(groups, pid);
    if found.None? {
      r := groups + [Group(pid, [lead], [i])];
    } else {
      var g := found.value;
      r := groups[g := groups[g].(leads := groups[g].leads + [lead], indices := groups[g].indices + [i])];
    }
  }

  // ---------------------------------------------------------------------------
  // Counting outcomes

  /** The number of leads in the groups whose request succeeded (`ok == true`) or failed. */
  function Sizes(groups: seq<Group>, accepted: set<string>, ok: bool): nat {
    if groups == [] then 0
    else
      var last := groups[|groups| - 1];
      Sizes(groups[..|groups| - 1], accepted, ok) + (if (last.pipelineId in accepted) == ok then |last.leads| else 0)
  }

  /** The leads below `n` whose pipeline's request succeeded (`ok == true`) or failed. */
  function LeadsWhere(sel: map<int, string>, accepted: set<string>, ok: bool, n: nat): nat
    requires forall i :: 0 <= i < n ==> i in sel
  {
    if n == 0 then 0
    else LeadsWhere(sel, accepted, ok, n - 1) + (if (sel[n - 1] in accepted) == ok then 1 else 0)
  }

  lemma {:induction false} SizesAppend(groups: seq<Group>, x: Group, accepted: set<string>, ok: bool)
    ensures Sizes(groups + [x], accepted, ok)
      == Sizes(groups, accepted, ok) + (if (x.pipelineId in accepted) == ok then |x.leads| else 0)
  {
    assert (groups + [x])[..|groups|] == groups;
  }

  lemma {:induction false} SizesUpdate(groups: seq<Group>, g: nat, x: Group, accepted: set<string>, ok: bool)
    requires g < |groups| && x.pipelineId == groups[g].pipelineId && |x.leads| == |groups[g].leads| + 1
    ensures Sizes(groups[g := x], accepted, ok)
      == Sizes(groups, accepted, ok) + (if (x.pipelineId in accepted) == ok then 1 else 0)
    decreases |groups|
  {
    var front := groups[..|groups| - 1];
    if g == |groups| - 1 {
      assert groups[g := x][..|groups| - 1] == front;
    } else {
      assert groups[g := x][..|groups| - 1] == front[g := x];
      SizesUpdate(front, g, x, accepted, ok);
    }
  }

  /** The groups' succeeded (or failed) sizes count the leads whose pipeline succeeded (or
      failed). */
  lemma {:induction false} GroupedSizes(leads: seq<Lead>, sel: map<int, string>, accepted: set<string>,
                                        ok: bool, n: nat)
    requires n <= |leads| && forall i :: 0 <= i < n ==> i in sel
    ensures Sizes(Grouped(leads, sel, n), accepted, ok) == LeadsWhere(sel, accepted, ok, n)
    decreases n
  {
    if n > 0 {
      GroupedSizes(leads, sel, accepted, ok, n - 1);
      var groups := Grouped(leads, sel, n - 1);
      match FindGroup(groups, sel[n - 1])
      case None =>
        SizesAppend(groups, Group(sel[n - 1], [leads[n - 1]], [n - 1]), accepted, ok);
      case Some(g) =>
        SizesUpdate(groups, g, groups[g].(leads := groups[g].leads + [leads[n - 1]],
                                          indices := groups[g].indices + [n - 1]), accepted, ok);
    }
  }

  lemma {:induction false} LeadsWhereSplit(sel: map<int, string>, accepted: set<string>, n: nat)
    requires forall i :: 0 <= i < n ==> i in sel
    ensures LeadsWhere(sel, accepted, true, n) + LeadsWhere(sel, accepted, false, n) == n
    decreases n
  {
    if n > 0 {
      LeadsWhereSplit(sel, accepted, n - 1);
    }
  }

  /** Once the per-group outcomes are fixed, successes and failures add up to the number of
      leads. */
  lemma CountsCoverAllLeads(leads: seq<Lead>, sel: map<int, string>, accepted: set<string>)
    requires forall i :: 0 <= i < |leads| ==> i in sel
    ensures Sizes(Grouped(leads, sel, |leads|), accepted, true)
          + Sizes(Grouped(leads, sel, |leads|), accepted, false) == |leads|
  {
    GroupedSizes(leads, sel, accepted, true, |leads|);
    GroupedSizes(leads, sel, accepted, false, |leads|);
    LeadsWhereSplit(sel, accepted, |leads|);
  }

  /** The `for ... of Object.entries(leadsByPipeline)` loop that counts successes and failures. */
  method CountOutcomes(groups: seq<Group>, accepted: set<string>) returns (successCount: nat, failCount: nat)
    ensures successCount == Sizes(groups, accepted, true) && failCount == Sizes(groups, accepted, false)
  {
    successCount, failCount := 0, 0;
    for j := 0 to |groups|
      invariant successCount == Sizes(groups[..j], accepted, true)
      invariant failCount == Sizes(groups[..j], accepted, false)
    {
      assert groups[..j + 1] == groups[..j] + [groups[j]];
      SizesAppend(groups[..j], groups[j], accepted, true);
      SizesAppend(groups[..j], groups[j], accepted, false);
      if groups[j].pipelineId in accepted {
        successCount := successCount + |groups[j].leads|;
      } else {
        failCount := failCount + |groups[j].leads|;
      }
    }
    assert groups[..|groups|] == groups;
  }

  // ---------------------------------------------------------------------------
  // The import button

  /** `canImport`. */
  function CanImport(sel: map<int, string>, n: nat, importing: bool): (b: bool)
    ensures b <==> |sel| == n && n > 0 && !importing
  {
    |sel| == n && n > 0 && !importing
  }

  /** A set of indices below `n` has `n` elements exactly when it holds all of them. */
  lemma {:induction false} KeysBelow(keys: set<int>, n: nat)
    requires forall k :: k in keys ==> 0 <= k < n
    ensures |keys| <= n
    ensures |keys| == n <==> forall i :: 0 <= i < n ==> i in keys
    decreases n
  {
    if n > 0 {
      var rest := keys - {n - 1};
      KeysBelow(rest, n - 1);
      if n - 1 !in keys {
        assert rest == keys;
      } else {
        assert keys == rest + {n - 1};
        if forall i :: 0 <= i < n ==> i in keys {
          assert forall i :: 0 <= i < n - 1 ==> i in rest;
        }
        if |keys| == n {
          forall i | 0 <= i < n ensures i in keys {
            if i < n - 1 { assert i in rest; }
          }
        }
      }
    } else if keys != {} {
      HasElement(keys);
      assert false;
    }
  }

  /** When the selections are keyed by lead indices, the button is enabled exactly when every
      lead has a selection, some lead exists and no import is running. */
  lemma CanImportMeansAllSelected(sel: map<int, string>, n: nat, importing: bool)
    requires forall k :: k in sel ==> 0 <= k < n
    ensures CanImport(sel, n, importing) <==> n > 0 && !importing && forall i :: 0 <= i < n ==> i in sel
  {
    KeysBelow(sel.Keys, n);
  }

  /** The message the dialog shows. */
  datatype ImportStatus = Rejected(problem: Check) | Imported(successCount: nat, failCount: nat) | ImportFailed

  /** The dialog's state. */
  class ImportDialog {
    var leads: seq<Lead>
    var selectedPipelines: map<int, string>
    var expandedIndices: set<int>
    var pipelines: seq<Pipeline>
    var importStatus: Option<ImportStatus>
    var showCreatePipeline: bool
    var currentPipelineIndex: Option<int>

    /** Selections and expanded rows refer to lead indices. */
    ghost predicate Valid()
      reads this
    {
      (forall k :: k in selectedPipelines ==> 0 <= k < |leads|)
      && (forall k :: k in expandedIndices ==> 0 <= k < |leads|)
    }

    /** The dialog opened with `initialLeads`, after the reset effect. */
    constructor (initialLeads: seq<Lead>)
      ensures Valid() && leads == NormalizeLeads(initialLeads)
      ensures selectedPipelines == map[] && expandedIndices == {} && pipelines == []
      ensures importStatus.None? && !showCreatePipeline && currentPipelineIndex.None?
    {
      leads := NormalizeLeads(initialLeads);
      selectedPipelines := map[];
      expandedIndices := {};
      pipelines := [];
      importStatus := None;
      showCreatePipeline := false;
      currentPipelineIndex := None;
    }

    /** The reset effect when the incoming leads change, followed by the default-pipeline
        effect, which the new leads trigger: with pipelines loaded every lead gets the first. */
    method Reset(initialLeads: seq<Lead>)
      modifies this
      ensures Valid() && leads == NormalizeLeads(initialLeads)
      ensures selectedPipelines == DefaultSelections(map[], pipelines, |leads|) && expandedIndices == {}
      ensures pipelines == old(pipelines) && importStatus == old(importStatus)
      ensures showCreatePipeline == old(showCreatePipeline) && currentPipelineIndex == old(currentPipelineIndex)
    {
      leads := NormalizeLeads(initialLeads);
      selectedPipelines := map[];
      expandedIndices := {};
      FillDefaultPipelines();
    }

    /** The pipelines as fetched, an empty list opening the create-pipeline dialog, followed by
        the default-pipeline effect, which the new list triggers. */
    method PipelinesFetched(fetched: seq<Pipeline>)
      requires Valid()
      modifies this`pipelines, this`showCreatePipeline, this`selectedPipelines
      ensures Valid() && pipelines == fetched
      ensures showCreatePipeline == (old(showCreatePipeline) || fetched == [])
      ensures selectedPipelines == DefaultSelections(old(selectedPipelines), fetched, |leads|)
    {
      pipelines := fetched;
      if fetched == [] {
        showCreatePipeline := true;
      }
      FillDefaultPipelines();
    }

    /** The default-pipeline effect (deps `[pipelines, leads]`): the steps that change the
        leads or the pipelines end with it. */
    method FillDefaultPipelines()
      requires Valid()
      modifies this`selectedPipelines
      ensures Valid() && selectedPipelines == DefaultSelections(old(selectedPipelines), pipelines, |leads|)
    {
      selectedPipelines := ApplyDefaults(selectedPipelines, pipelines, |leads|);
    }

    /** `handleFieldChange(index, field, value)`, followed by the default-pipeline effect. */
    method FieldChange(index: nat, field: string, value: string)
      requires Valid() && index < |leads|
      modifies this`leads, this`selectedPipelines
      ensures Valid() && leads == old(leads)[index := old(leads)[index][field := value]]
      ensures selectedPipelines == DefaultSelections(old(selectedPipelines), pipelines, |leads|)
    {
      leads := leads[index := leads[index][field := value]];
      FillDefaultPipelines();
    }

    /** `handlePipelineChange(index, pipelineId)`. */
    method PipelineChange(index: nat, pipelineId: string)
      requires Valid() && index < |leads|
      modifies this`selectedPipelines
      ensures Valid() && selectedPipelines == old(selectedPipelines)[index := pipelineId]
    {
      selectedPipelines := selectedPipelines[index := pipelineId];
    }

    /** `handleRemoveLead(index)`, followed by the default-pipeline effect: removing the only
        selected lead leaves no selection, so the remaining leads get the first pipeline. */
    method RemoveLead(index: nat)
      requires Valid()
      modifies this`leads, this`expandedIndices, this`selectedPipelines
      ensures Valid() && leads == RemoveAt(old(leads), index)
      ensures expandedIndices == ReindexSet(old(expandedIndices), index)
      ensures selectedPipelines == DefaultSelections(ReindexMap(old(selectedPipelines), index), pipelines, |leads|)
    {
      leads := RemoveAt(leads, index);
      expandedIndices := ReindexExpanded(expandedIndices, index);
      selectedPipelines := ReindexSelections(selectedPipelines, index);
      forall k | k in expandedIndices ensures 0 <= k < |leads| {
        ReindexSetMembership(old(expandedIndices), index, k);
      }
      forall k | k in selectedPipelines ensures 0 <= k < |leads| {
        ReindexMapEntries(old(selectedPipelines), index, k);
      }
      FillDefaultPipelines();
    }

    /** `toggleExpand(index)`. */
    method Toggle(index: nat)
      requires Valid() && index < |leads|
      modifies this`expandedIndices
      ensures Valid() && expandedIndices == ToggleExpand(old(expandedIndices), index)
    {
      expandedIndices := ToggleExpand(expandedIndices, index);
    }

    /** The "+ Create Pipeline" entry of lead `index`'s selector. */
    method OpenCreatePipeline(index: nat)
      modifies this`currentPipelineIndex, this`showCreatePipeline
      ensures currentPipelineIndex == Some(index) && showCreatePipeline
    {
      currentPipelineIndex := Some(index);
      showCreatePipeline := true;
    }

    /** `onCreate(pipeline)`: the pipeline is listed and chosen for the lead that asked for it,
        and the default-pipeline effect, which the longer list triggers, follows. */
    method OnCreate(pipeline: Pipeline)
      requires Valid() && (currentPipelineIndex.Some? ==> 0 <= currentPipelineIndex.value < |leads|)
      modifies this`pipelines, this`selectedPipelines, this`showCreatePipeline, this`currentPipelineIndex
      ensures Valid() && pipelines == old(pipelines) + [pipeline]
      ensures old(currentPipelineIndex).Some? ==>
        selectedPipelines == old(selectedPipelines)[old(currentPipelineIndex).value := pipeline.id]
      ensures old(currentPipelineIndex).None? ==>
        selectedPipelines == DefaultSelections(old(selectedPipelines), pipelines, |leads|)
      ensures !showCreatePipeline && currentPipelineIndex.None?
    {
      pipelines := pipelines + [pipeline];
      if currentPipelineIndex.Some? {
        selectedPipelines := selectedPipelines[currentPipelineIndex.value := pipeline.id];
      }
      showCreatePipeline := false;
      currentPipelineIndex := None;
      FillDefaultPipelines();
    }

    /** `handleImportClick`; `accepted` holds the pipelines whose bulk-create request succeeds. */
    method ImportClick(accepted: set<string>) returns (groups: seq<Group>)
      modifies this`importStatus
      ensures Validate(leads, selectedPipelines) != Ready ==>
        groups == [] && importStatus == Some(Rejected(Validate(leads, selectedPipelines)))
      ensures Validate(leads, selectedPipelines) == Ready ==>
        groups == Grouped(leads, selectedPipelines, |leads|)
        && importStatus == Some(if Sizes(groups, accepted, true) > 0
                                then Imported(Sizes(groups, accepted, true), Sizes(groups, accepted, false))
                                else ImportFailed)
      ensures importStatus.value.Imported? ==>
        importStatus.value.successCount + importStatus.value.failCount == |leads|
    {
      var check := Validate(leads, selectedPipelines);
      if check != Ready {
        importStatus := Some(Rejected(check));
        return [];
      }
      groups := GroupLeads(leads, selectedPipelines);
      var successCount, failCount := CountOutcomes(groups, accepted);
      CountsCoverAllLeads(leads, selectedPipelines, accepted);
      if successCount > 0 {
        importStatus := Some(Imported(successCount, failCount));
      } else {
        importStatus := Some(ImportFailed);
      }
    }
  }
}
