/**
 * Round-robin distribution of decoded leads over the agent pool: lead `i`
 * goes to agent `i mod M`, and every resulting document is saved.
 */
module Distributor {
  import opened Wrappers
  import opened ListItem
  import opened ListStore
  import opened AgentDirectory

  /** One decoded row, reduced to the three fields the upload keeps. */
  datatype Lead = Lead(firstName: Option<string>, phone: Option<string>, notes: Option<string>)

  /** The document built from a lead and its agent; status and priority are left to the defaults. */
  function NewListItem(lead: Lead, agent: ObjectId): Draft {
    Draft(lead.firstName, lead.phone, lead.notes, Some(agent), None, None)
  }

  /** Reference definition of the assignment: lead `i` with agent `i mod M`. */
  function RoundRobin(leads: seq<Lead>, agents: seq<Agent>): seq<Draft>
    requires |agents| > 0
  {
    seq(|leads|, i requires 0 <= i < |leads| => NewListItem(leads[i], agents[i % |agents|].id))
  }

  lemma MulAtLeast(m: int, d: int)
    requires m > 0 && d >= 1
    ensures m * d >= m
  {
  }

  lemma DivModUnique(n: nat, m: nat, q: int, r: int)
    requires m > 0 && 0 <= r < m && n == m * q + r
    ensures n / m == q && n % m == r
  {
    var q', r' := n / m, n % m;
    assert m * (q - q') == r' - r;
    if q > q' {
      MulAtLeast(m, q - q');
    } else if q < q' {
      MulAtLeast(m, q' - q);
    }
  }

  lemma DivModStep(n: nat, m: nat)
    requires m > 0
    ensures n % m == m - 1 ==> (n + 1) / m == n / m + 1 && (n + 1) % m == 0
    ensures n % m != m - 1 ==> (n + 1) / m == n / m && (n + 1) % m == n % m + 1
  {
    var q, r := n / m, n % m;
    if r == m - 1 {
      DivModUnique(n + 1, m, q + 1, 0);
    } else {
      DivModUnique(n + 1, m, q, r + 1);
    }
  }

  /** Advancing the cursor modulo the pool size keeps it equal to the index modulo the pool size. */
  lemma CursorStep(i: nat, m: nat)
    requires m > 0
    ensures (i % m + 1) % m == (i + 1) % m
  {
    DivModStep(i, m);
    if i % m == m - 1 {
      DivModUnique(m, m, 1, 0);
    } else {
      DivModUnique(i % m + 1, m, 0, i % m + 1);
    }
  }

  /** Saving one more draft extends the batch by one save. */
  lemma SaveAllSnoc(s: Store, ds: seq<Draft>, d: Draft, now: nat)
    requires Valid(s)
    ensures SaveAll(s, ds + [d], now)
      == (Save(SaveAll(s, ds, now).0, d, now).0, SaveAll(s, ds, now).1 && Save(SaveAll(s, ds, now).0, d, now).1)
  {
    assert (ds + [d])[..|ds|] == ds;
  }

  /**
   * The distribution loop: a cursor into the pool starts at 0 and advances
   * modulo the pool size after each lead, so it always equals the lead's
   * index modulo the pool size. Each document's save is started in turn.
   * `agents` is non-empty: the upload handler refuses an empty pool first.
   */
  method DistributeAndSave(leads: seq<Lead>, agents: seq<Agent>, store: Store, now: nat)
    returns (drafts: seq<Draft>, saved: Store, allSaved: bool)
    requires |agents| > 0
    requires Valid(store)
    ensures |drafts| == |leads|
    ensures forall i :: 0 <= i < |leads| ==> drafts[i] == NewListItem(leads[i], agents[i % |agents|].id)
    ensures drafts == RoundRobin(leads, agents)
    ensures saved == SaveAll(store, drafts, now).0 && allSaved == SaveAll(store, drafts, now).1
  {
    var agentIndex := 0;
    drafts := [];
    saved, allSaved := store, true;
    var i := 0;
    while i < |leads|
      invariant 0 <= i <= |leads|
      invariant 0 <= agentIndex < |agents|
      invariant agentIndex == i % |agents|
      invariant |drafts| == i
      invariant forall j :: 0 <= j < i ==> drafts[j] == NewListItem(leads[j], agents[j % |agents|].id)
      invariant Valid(saved)
      invariant saved == SaveAll(store, drafts, now).0 && allSaved == SaveAll(store, drafts, now).1
    {
      var assignedAgent := agents[agentIndex];
      var newItem := NewListItem(leads[i], assignedAgent.id);
      var step := Save(saved, newItem, now);
      SaveAllSnoc(store, drafts, newItem, now);
      drafts := drafts + [newItem];
      saved, allSaved := step.0, allSaved && step.1;
      CursorStep(i, |agents|);
      agentIndex := (agentIndex + 1) % |agents|;
      i := i + 1;
    }
    assert drafts == RoundRobin(leads, agents);
  }

  /** How many drafts are assigned to agent `id`. */
  function Load(ds: seq<Draft>, id: ObjectId): nat {
    if |ds| == 0 then 0
    else Load(ds[..|ds| - 1], id) + (if ds[|ds| - 1].agent == Some(id) then 1 else 0)
  }

  /**
   * The loop's cursor after `i` leads: it starts at 0 and each step adds one,
   * wrapping to 0 when it reaches the pool size `m`.
   */
  function Cursor(i: nat, m: nat): (c: nat)
    requires m > 0
    ensures c < m
  {
    if i == 0 then 0
    else
      var prev := Cursor(i - 1, m);
      if prev + 1 == m then 0 else prev + 1
  }

  /** How many times the cursor has wrapped after `i` leads: the number of completed passes over the pool. */
  function Rounds(i: nat, m: nat): nat
    requires m > 0
  {
    if i == 0 then 0 else Rounds(i - 1, m) + (if Cursor(i - 1, m) == m - 1 then 1 else 0)
  }

  /** After `i` leads the cursor is `i mod m` and `i div m` passes are complete. */
  lemma {:induction false} CursorCountsModulo(i: nat, m: nat)
    requires m > 0
    ensures Cursor(i, m) == i % m && Rounds(i, m) == i / m
  {
    if i > 0 {
      CursorCountsModulo(i - 1, m);
      DivModStep(i - 1, m);
    }
  }

  /** The agent of draft `i` is agent `k` exactly when `i` is `k` modulo the pool size. */
  lemma AssignedToK(leads: seq<Lead>, agents: seq<Agent>, k: nat, i: nat)
    requires |agents| > 0 && DistinctIds(agents)
    requires k < |agents| && i < |leads|
    ensures (RoundRobin(leads, agents)[i].agent == Some(agents[k].id)) == (i % |agents| == k)
  {
    var j := i % |agents|;
    assert RoundRobin(leads, agents)[i].agent == Some(agents[j].id);
    if j < k {
      assert agents[j].id != agents[k].id;
    } else if k < j {
      assert agents[k].id != agents[j].id;
    }
  }

  lemma LoadSnoc(ds: seq<Draft>, id: ObjectId, n: nat)
    requires 0 < n <= |ds|
    ensures Load(ds[..n], id) == Load(ds[..n - 1], id) + (if ds[n - 1].agent == Some(id) then 1 else 0)
  {
    assert ds[..n][..n - 1] == ds[..n - 1];
  }

  /** One step of the count: the load of the first `n` drafts from the load of the first `n - 1`. */
  lemma PrefixLoadStep(ds: seq<Draft>, id: ObjectId, m: nat, k: nat, n: nat)
    requires k < m && 0 < n <= |ds|
    requires Load(ds[..n - 1], id) == Rounds(n - 1, m) + (if k < Cursor(n - 1, m) then 1 else 0)
    requires ds[n - 1].agent == Some(id) <==> Cursor(n - 1, m) == k
    ensures Load(ds[..n], id) == Rounds(n, m) + (if k < Cursor(n, m) then 1 else 0)
  {
    LoadSnoc(ds, id, n);
  }

  /**
   * Counting: when draft `i` belongs to the agent exactly if the cursor stood
   * at `k` for it, the first `n` drafts hold one per completed pass, plus one
   * when the current pass has already gone past `k`.
   */
  lemma {:induction false} PrefixLoad(ds: seq<Draft>, id: ObjectId, m: nat, k: nat, n: nat)
    requires k < m && n <= |ds|
    requires forall i :: 0 <= i < |ds| ==> (ds[i].agent == Some(id) <==> Cursor(i, m) == k)
    ensures Load(ds[..n], id) == Rounds(n, m) + (if k < Cursor(n, m) then 1 else 0)
  {
    if n > 0 {
      PrefixLoad(ds, id, m, k, n - 1);
      PrefixLoadStep(ds, id, m, k, n);
    }
  }

  /**
   * Fairness: with N leads and M agents, agent `k` receives N div M leads,
   * plus one more exactly when `k < N mod M`; so every agent gets the floor or
   * the ceiling of N/M, and the surplus goes to the first agents of the pool.
   */
  lemma RoundRobinFair(leads: seq<Lead>, agents: seq<Agent>, k: nat)
    requires |agents| > 0 && DistinctIds(agents)
    requires k < |agents|
    ensures Load(RoundRobin(leads, agents), agents[k].id)
      == |leads| / |agents| + (if k < |leads| % |agents| then 1 else 0)
    ensures |leads| / |agents| <= Load(RoundRobin(leads, agents), agents[k].id) <= |leads| / |agents| + 1
  {
    var ds := RoundRobin(leads, agents);
    forall i | 0 <= i < |ds|
      ensures ds[i].agent == Some(agents[k].id) <==> Cursor(i, |agents|) == k
    {
      AssignedToK(leads, agents, k, i);
      CursorCountsModulo(i, |agents|);
    }
    PrefixLoad(ds, agents[k].id, |agents|, k, |ds|);
    CursorCountsModulo(|ds|, |agents|);
    assert ds[..|ds|] == ds;
  }
}
