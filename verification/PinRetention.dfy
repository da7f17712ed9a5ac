/** Merging what the journal and the durable content still need pins for, before retiring pins are pruned. */
module PinRetention {
  import opened LinkKeyring
  import opened LinkKeyringValidity

  datatype Category =
    ContentKept | CommandKept | ExecutionKept | TerminalReceiptKept | PendingOutboxKept | UndeliverableOutboxKept

  type References = map<Category, map<PinKey, Timestamp>>

  /** The categories in the order in which pruneRetiring looks them up. */
  const CATEGORIES :=
      [ContentKept, CommandKept, ExecutionKept, TerminalReceiptKept, PendingOutboxKept, UndeliverableOutboxKept]

  predicate Asks(r: References, c: Category, key: PinKey) { c in r && key in r[c] }

  function InOrder(r: References): seq<map<PinKey, Timestamp>> {
    seq(|CATEGORIES|, i requires 0 <= i < |CATEGORIES| => if CATEGORIES[i] in r then r[CATEGORIES[i]] else map[])
  }

  /** `m` asks for exactly what some of the inputs ask for, until the latest of their times. */
  ghost predicate Merges(m: References, inputs: seq<References>) {
    && (forall c, key :: Asks(m, c, key) <==> exists i :: 0 <= i < |inputs| && Asks(inputs[i], c, key))
    && (forall c, key, i :: 0 <= i < |inputs| && Asks(inputs[i], c, key) ==>
          Asks(m, c, key) && inputs[i][c][key] <= m[c][key])
    && (forall c, key :: Asks(m, c, key) ==>
        exists i :: 0 <= i < |inputs| && Asks(inputs[i], c, key) && inputs[i][c][key] == m[c][key])
  }

  /** The later of the times the two ask for, key by key. */
  function Later(a: map<PinKey, Timestamp>, b: map<PinKey, Timestamp>): map<PinKey, Timestamp> {
    map key | key in a.Keys + b.Keys ::
      if key !in b then a[key] else if key !in a || a[key] < b[key] then b[key] else a[key]
  }

  function LaterIn(a: References, b: References): References {
    map c | c in a.Keys + b.Keys :: if c !in b then a[c] else if c !in a then b[c] else Later(a[c], b[c])
  }

  method MergeValues(target: map<PinKey, Timestamp>, values: map<PinKey, Timestamp>)
      returns (merged: map<PinKey, Timestamp>)
    ensures merged == Later(target, values)
  {
    merged := target;
    var keys := values.Keys;
    while keys != {}
      invariant keys <= values.Keys
      invariant merged == Later(target, map key | key in values.Keys - keys :: values[key])
    {
      var key :| key in keys;
      if key !in merged || merged[key] < values[key] { merged := merged[key := values[key]]; }
      keys := keys - {key};
    }
    assert (map key | key in values.Keys - keys :: values[key]) == values;
  }

  method MergeInput(target: References, input: References) returns (merged: References)
    ensures merged == LaterIn(target, input)
  {
    merged := target;
    var categories := input.Keys;
    while categories != {}
      invariant categories <= input.Keys && merged.Keys == target.Keys + (input.Keys - categories)
      invariant forall c :: c in merged ==>
                  merged[c] == (if c in input.Keys - categories then LaterIn(target, input)[c] else target[c])
    {
      var c :| c in categories;
      var values := MergeValues(if c in merged then merged[c] else map[], input[c]);
      assert c !in merged ==> values == input[c];
      merged := merged[c := values];
      categories := categories - {c};
    }
  }

  lemma LaterMerges(m: References, inputs: seq<References>, next: References)
    requires Merges(m, inputs)
    ensures Merges(LaterIn(m, next), inputs + [next])
  {
    var all, m' := inputs + [next], LaterIn(m, next);
    assert all[|inputs|] == next && forall i :: 0 <= i < |inputs| ==> all[i] == inputs[i];
    forall c, key | Asks(m', c, key)
      ensures exists i :: 0 <= i < |all| && Asks(all[i], c, key) && all[i][c][key] == m'[c][key]
    {
      if Asks(m, c, key) && m[c][key] == m'[c][key] {
        var i :| 0 <= i < |inputs| && Asks(inputs[i], c, key) && inputs[i][c][key] == m[c][key];
        assert Asks(all[i], c, key);
      } else {
        assert Asks(all[|inputs|], c, key);
      }
    }
    forall c, key, i | 0 <= i < |all| && Asks(all[i], c, key)
      ensures Asks(m', c, key) && all[i][c][key] <= m'[c][key]
    {
      if i < |inputs| { assert Asks(inputs[i], c, key) && Asks(m, c, key); }
    }
  }

  method Merge(inputs: seq<References>) returns (merged: References)
    ensures Merges(merged, inputs)
  {
    merged := map[];
    for n := 0 to |inputs|
      invariant Merges(merged, inputs[..n])
    {
      LaterMerges(merged, inputs[..n], inputs[n]);
      assert inputs[..n] + [inputs[n]] == inputs[..n + 1];
      merged := MergeInput(merged, inputs[n]);
    }
    assert inputs[..|inputs|] == inputs;
  }

  function Place(c: Category): (n: nat)
    ensures n < |CATEGORIES| && CATEGORIES[n] == c
  {
    match c
    case ContentKept => 0 case CommandKept => 1 case ExecutionKept => 2
    case TerminalReceiptKept => 3 case PendingOutboxKept => 4 case UndeliverableOutboxKept => 5
  }

  /** A pin is kept exactly when some category asks for it long enough. */
  lemma RetainedIff(p: Pin, r: References, now: Timestamp)
    ensures Retained(p, InOrder(r), now)
        <==> p.status.Active? || exists c :: Asks(r, c, p.Key()) && r[c][p.Key()] >= now
  {
    var key, ordered := p.Key(), InOrder(r);
    RetainUntilIsLatest(ordered, key);
    if c :| Asks(r, c, key) && r[c][key] >= now { assert ordered[Place(c)][key] == r[c][key]; }
    if !p.status.Active? && Retained(p, ordered, now) {
      var n :| 0 <= n < |ordered| && key in ordered[n] && ordered[n][key] == RetainUntil(ordered, key).value;
      assert Asks(r, CATEGORIES[n], key);
    }
  }

  /** Pruning with merged references keeps a pin exactly when one of the inputs asked for it long enough. */
  lemma MergedReferencesRetain(p: Pin, merged: References, inputs: seq<References>, now: Timestamp)
    requires Merges(merged, inputs)
    ensures Retained(p, InOrder(merged), now)
            <==> p.status.Active?
                 || exists i, c :: 0 <= i < |inputs| && Asks(inputs[i], c, p.Key()) && inputs[i][c][p.Key()] >= now
  {
    RetainedIff(p, merged, now);
    var key := p.Key();
    if i, c :| 0 <= i < |inputs| && Asks(inputs[i], c, key) && inputs[i][c][key] >= now { assert Asks(merged, c, key); }
  }
}
