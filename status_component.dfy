/**
 * The data side of the status page: turning the server's plugin status
 * list into table rows (name and version split out of the plugin id, a
 * colour state mapped to a label and a severity), sorting the rows with
 * the most severe first, mapping the overall state to the header badge,
 * and the component's own state (loading, raw-response flyout).
 */
module StatusComponent {
  import opened Wrappers
  import opened JsonValues

  // ---------------------------------------------------------------------
  // JavaScript string helpers
  // ---------------------------------------------------------------------

  /** `s.indexOf(c)`: the first index of `c`, or -1. */
  function IndexOf(s: string, c: char): (r: int)
    ensures -1 <= r < |s|
    ensures r == -1 <==> c !in s
    ensures r >= 0 ==> s[r] == c && c !in s[..r]
  {
    if |s| == 0 then -1
    else if s[0] == c then 0
    else
      var k := IndexOf(s[1..], c);
      assert s[1..][..k + 1] == s[1..k + 2] by { if k >= 0 { assert s[1..][..k] == s[1..k + 1]; } }
      if k == -1 then -1 else k + 1
  }

  function Clamp(x: int, n: nat): nat
  {
    if x < 0 then 0 else if x > n then n else x
  }

  /** `s.substring(start, end)`: both ends clamped to the string, swapped when reversed. */
  function Substring(s: string, start: int, end: int): (r: string)
    ensures 0 <= start <= end <= |s| ==> r == s[start..end]
    ensures end <= 0 && start <= 0 ==> r == ""
  {
    var a := Clamp(start, |s|);
    var b := Clamp(end, |s|);
    if a <= b then s[a..b] else s[b..a]
  }

  // ---------------------------------------------------------------------
  // Plugin rows
  // ---------------------------------------------------------------------

  /**
   * A plugin status as the server reports it; `extra` stands for every
   * field other than `id`, `state`, `name` and `version`.
   */
  datatype Plugin<T> = Plugin(id: string, state: string, extra: T)

  datatype PluginState = PluginState(color: string, iconType: string, text: string, value: int)

  /** A table row: the plugin's fields, with `state` replaced and `name` and `version` added. */
  datatype PluginRow<T> = PluginRow(id: string, state: PluginState, name: string, version: string, extra: T)

  /** `plugin.id.substring(plugin.id.indexOf(':') + 1)`. */
  function IdRemainder(id: string): string
  {
    Substring(id, IndexOf(id, ':') + 1, |id|)
  }

  /** `name.substring(0, versionIndex)` and `name.substring(versionIndex + 1)`. */
  function NameAndVersion(rest: string): (string, string)
  {
    var versionIndex := IndexOf(rest, '@');
    (Substring(rest, 0, versionIndex), Substring(rest, versionIndex + 1, |rest|))
  }

  /** Without a `:` the remainder is the whole id (`indexOf` gives -1, so `substring(0)`). */
  lemma IdRemainderWithoutColon(id: string)
    requires ':' !in id
    ensures IdRemainder(id) == id
  {
    assert id[0..|id|] == id;
  }

  /** With a `:`, the remainder is the text after the first one. */
  lemma IdRemainderAfterFirstColon(id: string, before: string, after: string)
    requires id == before + [':'] + after && ':' !in before
    ensures IdRemainder(id) == after
  {
    var k := IndexOf(id, ':');
    assert id[..|before|] == before;
    assert id[|before|] == ':';
    assert k == |before|;
    assert id[k + 1..] == after;
    assert Substring(id, k + 1, |id|) == id[k + 1..];
  }

  /** With an `@`, the name is the text before the first `@` and the version the text after it. */
  lemma NameAndVersionSplitsAtFirstAt(rest: string, name: string, version: string)
    requires rest == name + ['@'] + version && '@' !in name
    ensures NameAndVersion(rest) == (name, version)
  {
    var k := IndexOf(rest, '@');
    assert rest[..|name|] == name;
    assert rest[|name|] == '@';
    assert k == |name|;
    assert Substring(rest, 0, k) == rest[0..k] == name;
    assert Substring(rest, k + 1, |rest|) == rest[k + 1..|rest|] == version;
  }

  /** Without an `@`, `substring(0, -1)` clamps to the empty name and the version is everything. */
  lemma NameAndVersionWithoutAt(rest: string)
    requires '@' !in rest
    ensures NameAndVersion(rest) == ("", rest)
  {
    assert rest[0..|rest|] == rest;
  }

  /** Splitting at the first `@` loses nothing: joining name and version gives the text back. */
  lemma NameAndVersionJoin(rest: string)
    requires '@' in rest
    ensures NameAndVersion(rest).0 + ['@'] + NameAndVersion(rest).1 == rest
    ensures '@' !in NameAndVersion(rest).0
  {
    var k := IndexOf(rest, '@');
    assert rest == rest[..k] + [rest[k]] + rest[k + 1..];
  }

  /** The `switch (plugin.state)`: colour, icon, label and severity of a plugin's state. */
  function StateOf(state: string): (r: PluginState)
    ensures 0 <= r.value <= 2
    ensures r.value == 0 <==> state == "red"
    ensures r.value == 1 <==> state == "yellow"
    ensures r.text == "Running" <==> state == "green"
    ensures r.text == "Unknown" <==> (state != "green" && state != "yellow" && state != "red")
    ensures state == "green" ==> r == PluginState("success", "check", "Running", 2)
    ensures state == "yellow" ==> r == PluginState("warning", "alert", "Warning", 1)
    ensures state == "red" ==> r == PluginState("danger", "cross", "Error", 0)
    ensures state != "green" && state != "yellow" && state != "red" ==> r == PluginState("subdued", "bolt", "Unknown", 2)
  {
    if state == "green" then PluginState("success", "check", "Running", 2)
    else if state == "yellow" then PluginState("warning", "alert", "Warning", 1)
    else if state == "red" then PluginState("danger", "cross", "Error", 0)
    else PluginState("subdued", "bolt", "Unknown", 2)
  }

  /** The per-plugin mapping of `remapPlugins`: every other field is kept. */
  function RemapPlugin<T>(p: Plugin<T>): (r: PluginRow<T>)
    ensures r.id == p.id && r.extra == p.extra
    ensures r.state == StateOf(p.state)
    ensures (r.name, r.version) == NameAndVersion(IdRemainder(p.id))
  {
    var nv := NameAndVersion(IdRemainder(p.id));
    PluginRow(p.id, StateOf(p.state), nv.0, nv.1, p.extra)
  }

  // ---------------------------------------------------------------------
  // Ordering
  // ---------------------------------------------------------------------

  /** `localeCompare(a, b) <= 0`, taken as lexicographic order on characters. */
  predicate NameLeq(a: string, b: string)
  {
    |a| == 0 || (|b| > 0 && (a[0] < b[0] || (a[0] == b[0] && NameLeq(a[1..], b[1..]))))
  }

  lemma {:induction false} NameLeqTotal(a: string, b: string)
    ensures NameLeq(a, b) || NameLeq(b, a)
  {
    if |a| > 0 && |b| > 0 && a[0] == b[0] {
      NameLeqTotal(a[1..], b[1..]);
    }
  }

  lemma {:induction false} NameLeqTransitive(a: string, b: string, c: string)
    requires NameLeq(a, b) && NameLeq(b, c)
    ensures NameLeq(a, c)
  {
    if |a| > 0 && |b| > 0 && |c| > 0 && a[0] == b[0] == c[0] {
      NameLeqTransitive(a[1..], b[1..], c[1..]);
    }
  }

  /** The sort comparator returns a value `<= 0`: lower severity value first, then by name. */
  predicate RowLeq<T>(a: PluginRow<T>, b: PluginRow<T>)
  {
    a.state.value < b.state.value || (a.state.value == b.state.value && NameLeq(a.name, b.name))
  }

  lemma RowLeqTotal<T>(a: PluginRow<T>, b: PluginRow<T>)
    ensures RowLeq(a, b) || RowLeq(b, a)
  {
    NameLeqTotal(a.name, b.name);
  }

  lemma RowLeqTransitive<T>(a: PluginRow<T>, b: PluginRow<T>, c: PluginRow<T>)
    requires RowLeq(a, b) && RowLeq(b, c)
    ensures RowLeq(a, c)
  {
    if a.state.value == b.state.value == c.state.value {
      NameLeqTransitive(a.name, b.name, c.name);
    }
  }

  predicate SortedRows<T>(s: seq<PluginRow<T>>)
  {
    forall i, j :: 0 <= i < j < |s| ==> RowLeq(s[i], s[j])
  }

  /** The `Array.prototype.sort` call of `remapPlugins`, as an in-place insertion sort. */
  method SortRows<T>(a: array<PluginRow<T>>)
    modifies a
    ensures SortedRows(a[..])
    ensures multiset(a[..]) == multiset(old(a[..]))
  {
    if a.Length == 0 {
      return;
    }
    var i := 1;
    while i < a.Length
      invariant 1 <= i <= a.Length
      invariant SortedRows(a[..i])
      invariant multiset(a[..]) == multiset(old(a[..]))
    {
      InsertLast(a, i);
      i := i + 1;
    }
    assert a[..i] == a[..];
  }

  /**
   * The state of one insertion pass over `s[..i + 1]`: the element being
   * moved sits at `j`, everything else is in order, and it is in order with
   * everything after it.
   */
  ghost predicate Inserting<T>(s: seq<PluginRow<T>>, j: nat, i: nat)
  {
    && j <= i < |s|
    && (forall p, q :: 0 <= p < q <= i && p != j && q != j ==> RowLeq(s[p], s[q]))
    && (forall q :: j < q <= i ==> RowLeq(s[j], s[q]))
  }

  lemma InsertingStart<T>(s: seq<PluginRow<T>>, i: nat)
    requires i < |s| && SortedRows(s[..i])
    ensures Inserting(s, i, i)
  {
    forall p, q | 0 <= p < q <= i && p != i && q != i ensures RowLeq(s[p], s[q]) {
      assert s[..i][p] == s[p] && s[..i][q] == s[q];
    }
  }

  /** Swapping the moved element with a larger left neighbour keeps the pass going, one place further left. */
  lemma InsertingSwap<T>(before: seq<PluginRow<T>>, after: seq<PluginRow<T>>, j: nat, i: nat)
    requires Inserting(before, j, i) && 0 < j && !RowLeq(before[j - 1], before[j])
    requires after == before[j - 1 := before[j]][j := before[j - 1]]
    ensures Inserting(after, j - 1, i)
    ensures multiset(after[..i + 1]) == multiset(before[..i + 1])
    ensures after[i + 1..] == before[i + 1..]
  {
    RowLeqTotal(before[j - 1], before[j]);
    forall q | j - 1 < q <= i ensures RowLeq(after[j - 1], after[q]) {
      if q > j {
        assert RowLeq(before[j - 1], before[q]);
        RowLeqTransitive(before[j], before[j - 1], before[q]);
      }
    }
    assert after[..i + 1] == before[..i + 1][j - 1 := before[j]][j := before[j - 1]];
  }

  /** Once the left neighbour is no larger (or there is none), the prefix is sorted. */
  lemma InsertingDone<T>(s: seq<PluginRow<T>>, j: nat, i: nat)
    requires Inserting(s, j, i) && (j == 0 || RowLeq(s[j - 1], s[j]))
    ensures SortedRows(s[..i + 1])
  {
    forall p | 0 <= p < j ensures RowLeq(s[p], s[j]) {
      if p < j - 1 {
        RowLeqTransitive(s[p], s[j - 1], s[j]);
      }
    }
    assert forall p, q :: 0 <= p < q <= i ==> RowLeq(s[p], s[q]);
  }

  /** One pass of the insertion sort: moves `a[i]` down into the sorted prefix `a[..i]`. */
  method InsertLast<T>(a: array<PluginRow<T>>, i: nat)
    requires 0 < i < a.Length
    requires SortedRows(a[..i])
    modifies a
    ensures SortedRows(a[..i + 1])
    ensures multiset(a[..i + 1]) == multiset(old(a[..i + 1]))
    ensures a[i + 1..] == old(a[i + 1..])
    ensures multiset(a[..]) == multiset(old(a[..]))
  {
    InsertingStart(a[..], i);
    var j := i;
    while j > 0 && !RowLeq(a[j - 1], a[j])
      invariant Inserting(a[..], j, i)
      invariant multiset(a[..i + 1]) == multiset(old(a[..i + 1]))
      invariant a[i + 1..] == old(a[i + 1..])
    {
      ghost var before := a[..];
      a[j - 1], a[j] := a[j], a[j - 1];
      InsertingSwap(before, a[..], j, i);
      j := j - 1;
    }
    InsertingDone(a[..], j, i);
    assert multiset(a[..]) == multiset(old(a[..])) by {
      assert a[..] == a[..i + 1] + a[i + 1..];
      assert old(a[..]) == old(a[..i + 1]) + old(a[i + 1..]);
    }
  }

  /** What `remapPlugins` delivers: nothing for a non-array, else the mapped plugins, sorted. */
  ghost predicate Remapped<T>(plugins: Option<seq<Plugin<T>>>, rows: Option<seq<PluginRow<T>>>)
  {
    && (rows.None? <==> plugins.None?)
    && (plugins.Some? ==>
         && |rows.value| == |plugins.value|
         && SortedRows(rows.value)
         && multiset(rows.value) == multiset(MapPlugins(plugins.value)))
  }

  function MapPlugins<T>(plugins: seq<Plugin<T>>): seq<PluginRow<T>>
  {
    seq(|plugins|, i requires 0 <= i < |plugins| => RemapPlugin(plugins[i]))
  }

  /** `remapPlugins`: `None` stands for a value that is not an array. */
  method RemapPlugins<T>(plugins: Option<seq<Plugin<T>>>) returns (rows: Option<seq<PluginRow<T>>>)
    ensures Remapped(plugins, rows)
  {
    if plugins.None? {
      return None;
    }
    var ps := plugins.value;
    var a := new PluginRow<T>[|ps|](i requires 0 <= i < |ps| => RemapPlugin(ps[i]));
    assert a[..] == MapPlugins(ps);
    SortRows(a);
    rows := Some(a[..]);
  }

  // ---------------------------------------------------------------------
  // Header and component state
  // ---------------------------------------------------------------------

  datatype Health = Health(color: string, text: string)

  const LOADING_HEALTH := Health("subdued", "Loading status")

  /** The `switch` on the overall state in `renderHeader`: anything but green or yellow is an error. */
  function OverallHealth(state: string): (h: Health)
    ensures state == "green" ==> h == Health("success", "Running")
    ensures state == "yellow" ==> h == Health("warning", "Warning")
    ensures state != "green" && state != "yellow" ==> h == Health("danger", "Error")
  {
    if state == "green" then Health("success", "Running")
    else if state == "yellow" then Health("warning", "Warning")
    else Health("danger", "Error")
  }

  /**
   * The header and the plugin rows agree on green, yellow and red; an
   * unknown state is an error in the header but "Unknown" in a row.
   */
  lemma HeaderAgreesWithRows(state: string)
    ensures state == "green" || state == "yellow" || state == "red" ==>
              OverallHealth(state) == Health(StateOf(state).color, StateOf(state).text)
    ensures state != "green" && state != "yellow" && state != "red" ==>
              OverallHealth(state).text == "Error" && StateOf(state).text == "Unknown"
  {
  }

  /** What the fetch handler stores: the overall state, the remapped plugins and the metrics. */
  datatype StatusData<T> = StatusData(overallState: string, plugins: Option<seq<PluginRow<T>>>, metrics: Json)

  /** The raw-response flyout, showing the stored payload (`undefined` before it arrives). */
  datatype RawPanel = RawPanel(raw: Option<Json>)

  /** The component's state (`this.state`) and the members that read or update it. */
  class StatusPage<T> {
    var loading: bool
    var showRawResponse: bool
    var data: Option<StatusData<T>>
    var raw: Option<Json>

    /** Data and payload are stored together, in the same update that ends loading. */
    ghost predicate Valid()
      reads this
    {
      !loading ==> data.Some? && raw.Some?
    }

    constructor ()
      ensures Valid()
      ensures loading && !showRawResponse && data.None? && raw.None?
    {
      loading := true;
      showRawResponse := false;
      data := None;
      raw := None;
    }

    /** The `setState({ data, raw: payload, loading: false })` after the status payload arrives. */
    method Load(overallState: string, statuses: Option<seq<Plugin<T>>>, metrics: Json, payload: Json)
      requires Valid()
      modifies this
      ensures Valid() && !loading
      ensures showRawResponse == old(showRawResponse)
      ensures raw == Some(payload)
      ensures data.Some? && data.value.overallState == overallState && data.value.metrics == metrics
      ensures Remapped(statuses, data.value.plugins)
    {
      var plugins := RemapPlugins(statuses);
      data := Some(StatusData(overallState, plugins, metrics));
      raw := Some(payload);
      loading := false;
    }

    /** `toggleRawResponse(toggle)`: sets the flag to exactly `toggle` and nothing else. */
    method ToggleRawResponse(toggle: bool)
      requires Valid()
      modifies this`showRawResponse
      ensures Valid()
      ensures showRawResponse == toggle
    {
      showRawResponse := toggle;
    }

    /** `rawResponse()`: the flyout exists exactly while the flag is set, and shows the stored payload. */
    function RawResponse(): (panel: Option<RawPanel>)
      reads this
      ensures panel.None? <==> !showRawResponse
      ensures panel.Some? ==> panel.value.raw == raw
    {
      if !showRawResponse then None else Some(RawPanel(raw))
    }

    /** The badge of `renderHeader`: "Loading status" until loaded, then the overall state's health. */
    function HeaderStatus(): (h: Health)
      reads this
      requires Valid()
      ensures loading ==> h == LOADING_HEALTH
      ensures !loading ==> h == OverallHealth(data.value.overallState)
    {
      if loading then LOADING_HEALTH else OverallHealth(data.value.overallState)
    }
  }
}
