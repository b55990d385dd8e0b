/** The tool registry of internal/tool/registry.go. */
module Registry {
  import opened Bytes

  datatype Source = Builtin | MCP

  /** The parts of a Tool the registry looks at; `id` stands for its identity. */
  datatype Tool = Tool(name: Bytes, source: Source, available: bool, id: int)

  const MCP_PREFIX: Bytes := "mcp__"

  // ---------------------------------------------------------------------------------
  // The listing order.
  // ---------------------------------------------------------------------------------

  /** Go's `<` on strings. */
  predicate Less(a: Bytes, b: Bytes) {
    b != "" && (a == "" || a[0] < b[0] || (a[0] == b[0] && Less(a[1..], b[1..])))
  }

  lemma {:induction false} LessTotal(a: Bytes, b: Bytes)
    ensures a == b || Less(a, b) || Less(b, a)
    ensures !(Less(a, b) && Less(b, a)) && !Less(a, a)
  {
    if a != "" && b != "" {
      LessTotal(a[1..], b[1..]);
      LessTotal(a[1..], a[1..]);
      assert a == [a[0]] + a[1..] && b == [b[0]] + b[1..];
    } else if a != "" {
      LessTotal(a[1..], a[1..]);
    }
  }

  lemma {:induction false} LessTransitive(a: Bytes, b: Bytes, c: Bytes)
    requires Less(a, b) && Less(b, c)
    ensures Less(a, c)
  {
    if a != "" && a[0] == b[0] == c[0] {
      LessTransitive(a[1..], b[1..], c[1..]);
    }
  }

  /** `a` ends inside `b`, or they first differ at a smaller byte of `a`. */
  predicate SmallerFrom(a: Bytes, b: Bytes, k: nat) {
    && k <= |a| && k < |b| && a[..k] == b[..k]
    && (k == |a| || a[k] < b[k])
  }

  lemma {:induction false} LessExactly(a: Bytes, b: Bytes)
    ensures Less(a, b) <==> exists k: nat :: SmallerFrom(a, b, k)
  {
    if a == "" || b == "" || a[0] != b[0] {
      if Less(a, b) { assert SmallerFrom(a, b, 0); }
      if k: nat :| SmallerFrom(a, b, k) { FirstByte(a, b, k); }
    } else {
      LessExactly(a[1..], b[1..]);
      LessFurther(a, b);
    }
  }

  lemma FirstByte(a: Bytes, b: Bytes, k: nat)
    requires SmallerFrom(a, b, k)
    ensures b != "" && (a == "" || a[0] < b[0] || (a[0] == b[0] && k > 0))
  {
    if k > 0 { assert a[..k][0] == a[0] && b[..k][0] == b[0]; }
  }

  lemma LessFurther(a: Bytes, b: Bytes)
    requires a != "" && b != "" && a[0] == b[0]
    ensures (exists k: nat :: SmallerFrom(a[1..], b[1..], k)) <==> exists k: nat :: SmallerFrom(a, b, k)
  {
    if k: nat :| SmallerFrom(a[1..], b[1..], k) {
      assert a[..k + 1] == [a[0]] + a[1..][..k] && b[..k + 1] == [b[0]] + b[1..][..k];
      assert SmallerFrom(a, b, k + 1);
    }
    if k: nat :| SmallerFrom(a, b, k) {
      FirstByte(a, b, k);
      assert a[1..][..k - 1] == a[..k][1..] && b[1..][..k - 1] == b[..k][1..];
      assert SmallerFrom(a[1..], b[1..], k - 1);
    }
  }

  /** The comparison handed to `sort.Slice`. */
  predicate Before(t: Tool, u: Tool) {
    if t.source != u.source then t.source == Builtin else Less(t.name, u.name)
  }

  lemma BeforeTransitive(t: Tool, u: Tool, v: Tool)
    requires Before(t, u) && Before(u, v)
    ensures Before(t, v)
  {
    if t.source == u.source == v.source {
      LessTransitive(t.name, u.name, v.name);
    }
  }

  predicate Ordered(ts: seq<Tool>) {
    forall i, j :: 0 <= i < j < |ts| ==> Before(ts[i], ts[j])
  }

  function Members(ts: seq<Tool>): set<Tool> {
    set t <- ts
  }

  /** `ts` lists exactly the tools in `all`, in listing order. */
  ghost predicate IsListing(ts: seq<Tool>, all: set<Tool>) {
    Ordered(ts) && Members(ts) == all
  }

  lemma EmptyListing(a: seq<Tool>, all: set<Tool>)
    requires IsListing(a, all)
    ensures a == [] <==> all == {}
  {
    if a != [] { assert a[0] in Members(a); }
  }

  /** There is only one way to list a set of tools, whatever the sort and the map order did. */
  lemma {:induction false} ListingUnique(a: seq<Tool>, b: seq<Tool>, all: set<Tool>)
    requires IsListing(a, all) && IsListing(b, all)
    ensures a == b
  {
    EmptyListing(a, all);
    EmptyListing(b, all);
    if a != [] {
      FirstIsLeast(a, b, all);
      TailListing(a, all);
      TailListing(b, all);
      ListingUnique(a[1..], b[1..], all - {a[0]});
      assert a == [a[0]] + a[1..] && b == [b[0]] + b[1..];
    }
  }

  lemma Irreflexive(t: Tool, u: Tool)
    ensures !Before(t, t) && !(Before(t, u) && Before(u, t))
  {
    LessTotal(t.name, u.name);
    LessTotal(t.name, t.name);
  }

  lemma FirstIsLeast(a: seq<Tool>, b: seq<Tool>, all: set<Tool>)
    requires IsListing(a, all) && IsListing(b, all) && a != [] && b != []
    ensures a[0] == b[0]
  {
    assert a[0] in Members(b) && b[0] in Members(a);
    var i :| 0 <= i < |b| && b[i] == a[0];
    var j :| 0 <= j < |a| && a[j] == b[0];
    if i > 0 && j > 0 {
      Irreflexive(a[0], b[0]);
    }
  }

  lemma TailListing(a: seq<Tool>, all: set<Tool>)
    requires IsListing(a, all) && a != []
    ensures IsListing(a[1..], all - {a[0]})
  {
    Irreflexive(a[0], a[0]);
    assert a == [a[0]] + a[1..];
  }

  /** Distinct names make the comparison a strict total order on the registered tools. */
  lemma BeforeTotal(t: Tool, u: Tool)
    requires t.name != u.name
    ensures Before(t, u) || Before(u, t)
  {
    LessTotal(t.name, u.name);
  }

  function Filter(ts: seq<Tool>): seq<Tool> {
    if ts == [] then []
    else
      var init, last := Filter(ts[..|ts| - 1]), ts[|ts| - 1];
      if last.available then init + [last] else init
  }

  // ---------------------------------------------------------------------------------
  // The registry.
  // ---------------------------------------------------------------------------------

  datatype RegisterError = EmptyName | MissingPrefix | ReservedPrefix | Duplicate

  class Registry {
    var data: map<Bytes, Tool>

    /** Names are unique and non-empty, and a tool comes from MCP exactly when its name says so. */
    ghost predicate Valid()
      reads this
    {
      forall n <- data.Keys ::
        && data[n].name == n != ""
        && (data[n].source == MCP <==> HasPrefix(n, MCP_PREFIX))
    }

    constructor ()
      ensures Valid() && data == map[]
    {
      data := map[];
    }

    method Register(t: Tool) returns (err: Option<RegisterError>)
      requires Valid()
      modifies this
      ensures Valid()
      ensures err.None? <==>
        t.name != "" && t.name !in old(data) && (t.source == MCP <==> HasPrefix(t.name, "mcp__"))
      ensures err == Some(EmptyName) <==> t.name == ""
      ensures err == Some(MissingPrefix) <==> t.name != "" && t.source == MCP && !HasPrefix(t.name, "mcp__")
      ensures err == Some(ReservedPrefix) <==> t.source != MCP && HasPrefix(t.name, "mcp__")
      ensures err.None? ==> data == old(data)[t.name := t] && data.Values == old(data).Values + {t}
      ensures err.Some? ==> data == old(data)
    {
      if t.name == "" { return Some(EmptyName); }
      if t.source == MCP && !HasPrefix(t.name, MCP_PREFIX) { return Some(MissingPrefix); }
      if t.source != MCP && HasPrefix(t.name, MCP_PREFIX) { return Some(ReservedPrefix); }
      if t.name in data { return Some(Duplicate); }
      ghost var before := data;
      data := data[t.name := t];
      assert data[t.name] == t;
      forall u | u in before.Values ensures u in data.Values {
        var n :| n in before && before[n] == u;
        assert n in data && data[n] == u;
      }
      return None;
    }

    /** Collects the tools in the map's arbitrary order and sorts them. */
    method List() returns (tools: seq<Tool>)
      requires Valid()
      ensures IsListing(tools, data.Values)
      ensures |tools| == |data|
    {
      tools := [];
      var todo := data.Keys;
      while todo != {}
        invariant todo <= data.Keys
        invariant IsListing(tools, set n | n in data.Keys - todo :: data[n])
        invariant |tools| + |todo| == |data|
        decreases |todo|
      {
        var n :| n in todo;
        forall u | u in tools ensures u.name != data[n].name {
          assert u in Members(tools);
        }
        ghost var seen := set k | k in data.Keys - todo :: data[k];
        tools := Insert(tools, data[n]);
        todo := todo - {n};
        assert seen + {data[n]} == set k | k in data.Keys - todo :: data[k];
      }
      assert data.Values == set n | n in data.Keys - {} :: data[n];
    }

    /** `all[:0]` with appends: the surviving tools overwrite the front of the listing. */
    method Available() returns (out: seq<Tool>)
      requires Valid()
      ensures forall listing :: IsListing(listing, data.Values) ==> out == Filter(listing)
      ensures IsListing(out, set t | t in data.Values && t.available)
    {
      var all := List();
      ghost var listing := all;
      var w := 0;
      for r := 0 to |all|
        invariant w <= r && |all| == |listing|
        invariant all[..w] == Filter(listing[..r])
        invariant all[r..] == listing[r..]
      {
        assert listing[..r + 1][..r] == listing[..r];
        assert all[r] == all[r..][0] == listing[r];
        ghost var rest := all[r..];
        if all[r].available {
          all := all[w := all[r]];
          assert all[..w + 1] == all[..w] + [listing[r]];
          w := w + 1;
        }
        assert all[r + 1..] == rest[1..];
      }
      assert listing[..|listing|] == listing;
      out := all[..w];
      forall other | IsListing(other, data.Values) ensures other == listing {
        ListingUnique(other, listing, data.Values);
      }
      FilterIsListing(listing, data.Values);
    }

    method RemoveByPrefix(prefix: Bytes)
      requires Valid()
      modifies this
      ensures Valid()
      ensures data == map n | n in old(data) && !HasPrefix(n, prefix) :: old(data)[n]
    {
      var todo := data.Keys;
      while todo != {}
        invariant todo <= data.Keys <= old(data).Keys
        invariant forall n :: n in old(data) ==> (n in data <==> n in todo || !HasPrefix(n, prefix))
        invariant forall n :: n in data ==> data[n] == old(data)[n]
        decreases |todo|
      {
        var n :| n in todo;
        if HasPrefix(n, prefix) {
          data := data - {n};
        }
        todo := todo - {n};
      }
    }
  }

  /** One step of the sort: `t` goes behind every tool that comes before it. */
  method Insert(ts: seq<Tool>, t: Tool) returns (r: seq<Tool>)
    requires Ordered(ts)
    requires forall u <- ts :: u.name != t.name
    ensures Ordered(r) && Members(r) == Members(ts) + {t} && |r| == |ts| + 1
  {
    var k := 0;
    while k < |ts| && Before(ts[k], t)
      invariant 0 <= k <= |ts|
      invariant forall i :: 0 <= i < k ==> Before(ts[i], t)
    {
      k := k + 1;
    }
    if k < |ts| {
      BeforeTotal(ts[k], t);
      forall j | k < j < |ts| ensures Before(t, ts[j]) {
        BeforeTransitive(t, ts[k], ts[j]);
      }
    }
    r := ts[..k] + [t] + ts[k..];
    InsertedAt(ts, k, t);
  }

  lemma InsertedAt(ts: seq<Tool>, k: nat, t: Tool)
    requires Ordered(ts) && k <= |ts|
    requires forall i :: 0 <= i < k ==> Before(ts[i], t)
    requires forall i :: k <= i < |ts| ==> Before(t, ts[i])
    ensures var r := ts[..k] + [t] + ts[k..]; Ordered(r) && Members(r) == Members(ts) + {t}
  {
    var r := ts[..k] + [t] + ts[k..];
    forall i, j | 0 <= i < j < |r| ensures Before(r[i], r[j]) {
      assert i < k ==> r[i] == ts[i];
      assert i > k ==> r[i] == ts[i - 1];
      assert j < k ==> r[j] == ts[j];
      assert j > k ==> r[j] == ts[j - 1];
    }
    assert ts == ts[..k] + ts[k..];
  }

  /** A listing has the built-in tools first, and within a source the names in ascending order: each
      ends inside the next or differs from it first at a smaller byte. */
  lemma ListingOrder(ts: seq<Tool>, all: set<Tool>, i: nat, j: nat)
    requires IsListing(ts, all) && i < j < |ts|
    ensures ts[i].source == Builtin || ts[j].source == MCP
    ensures ts[i].source == ts[j].source ==> exists k: nat :: SmallerFrom(ts[i].name, ts[j].name, k)
  {
    LessExactly(ts[i].name, ts[j].name);
  }

  /** Filtering keeps the listing order and loses only the unavailable tools. */
  lemma {:induction false} FilterIsListing(ts: seq<Tool>, all: set<Tool>)
    requires IsListing(ts, all)
    ensures IsListing(Filter(ts), set t | t in all && t.available)
  {
    if ts != [] {
      var init, last := ts[..|ts| - 1], ts[|ts| - 1];
      assert ts == init + [last];
      Irreflexive(last, last);
      FilterIsListing(init, Members(init));
      var kept := Filter(init);
      forall t | t in kept ensures t in init && t.available && Before(t, last) {
        assert t in Members(kept);
      }
      assert Members(kept + [last]) == Members(kept) + {last};
    }
  }
}
