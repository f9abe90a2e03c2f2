/**
 * The event-name "upper-casing" loop that `Publication.create_webhook` and
 * `Webhook.update` run over the caller's own list:
 *
 *     for i in events: events.append(i.upper())
 *
 * Python's list iterator re-reads the length on every step, so each step
 * appends one element and the cursor never reaches the end of a non-empty
 * list. The loop is modelled as a method over a shared list object, run for
 * a step budget chosen by the caller; `Grown` gives the list after any
 * number of steps, and the method proves that the loop is still running
 * after every one of them. `UppercaseInPlace` is the replacing loop the
 * code evidently intended.
 */
module Events {
  import opened Ascii

  /** A Python `list[str]`, shared by reference between the caller and the callee. */
  class PyList {
    var items: seq<string>

    constructor (items: seq<string>)
      ensures this.items == items
    {
      this.items := items;
    }
  }

  /**
   * The list after `k` steps of the appending loop started on a non-empty `s`:
   * the appended elements cycle through the upper-cased originals.
   */
  function Grown(s: seq<string>, k: nat): (r: seq<string>)
    requires s != []
  {
    s + seq(k, j requires 0 <= j < k => Upper(Cycle(s, j)))
  }

  /** `s[j % |s|]`: the element the cursor meets at position `|s| + j`, once upper-cased. */
  function Cycle(s: seq<string>, j: nat): string
    requires s != []
    decreases j
  {
    if j < |s| then s[j] else Cycle(s, j - |s|)
  }

  /**
   * One step of the loop from `Grown(s, k)`: the cursor `k` is still behind
   * the end, and appending the upper-cased element under the cursor gives
   * `Grown(s, k + 1)`.
   */
  lemma {:induction false} GrownStep(s: seq<string>, k: nat)
    requires s != []
    ensures k < |Grown(s, k)|
    ensures Grown(s, k + 1) == Grown(s, k) + [Upper(Grown(s, k)[k])]
  {
    var n := |s|;
    var g := Grown(s, k);
    if k < n {
      assert g[k] == s[k] == Cycle(s, k);
    } else {
      assert g[k] == Upper(Cycle(s, k - n)) == Upper(Cycle(s, k));
      UpperIdempotent(Cycle(s, k));
    }
    assert Grown(s, k + 1)[|g|] == Upper(Cycle(s, k));
  }

  /**
   * Runs the loop on the caller's list for at most `budget` steps.
   * `exited` reports whether the Python loop ended: exactly when the list was
   * empty, which it leaves unchanged. Otherwise the list has grown by one
   * element per step and the cursor is still behind its end, so no budget is
   * ever enough.
   */
  method AppendUppercased(events: PyList, budget: nat) returns (cursor: nat, exited: bool)
    modifies events
    ensures exited <==> old(events.items) == []
    ensures exited ==> events.items == old(events.items) && cursor == 0
    ensures !exited ==> cursor == budget && cursor < |events.items|
                        && |events.items| == |old(events.items)| + budget
                        && events.items == Grown(old(events.items), budget)
  {
    ghost var s := events.items;
    cursor := 0;
    while cursor < |events.items| && cursor < budget
      invariant cursor <= budget
      invariant s == [] ==> events.items == [] && cursor == 0
      invariant s != [] ==> events.items == Grown(s, cursor)
    {
      GrownStep(s, cursor);
      events.items := events.items + [Upper(events.items[cursor])];
      cursor := cursor + 1;
    }
    if s != [] {
      GrownStep(s, cursor);
    }
    exited := cursor >= |events.items|;
  }

  /** Every element upper-cased, in place: what the loop is evidently meant to do. */
  function Uppercased(s: seq<string>): (r: seq<string>)
    ensures |r| == |s|
    ensures forall i :: 0 <= i < |s| ==> IsUpperCased(r[i]) && |r[i]| == |s[i]|
  {
    if s == [] then [] else [Upper(s[0])] + Uppercased(s[1..])
  }

  lemma {:induction false} UppercasedAt(s: seq<string>, i: nat)
    requires i < |s|
    ensures Uppercased(s)[i] == Upper(s[i])
  {
    if i > 0 {
      UppercasedAt(s[1..], i - 1);
    }
  }

  /** Replaces each element with its upper-cased form; the length never changes. */
  method UppercaseInPlace(events: PyList)
    modifies events
    ensures events.items == Uppercased(old(events.items))
  {
    ghost var s := events.items;
    var i := 0;
    while i < |events.items|
      invariant 0 <= i <= |events.items| == |s|
      invariant forall j :: 0 <= j < i ==> events.items[j] == Upper(s[j])
      invariant forall j :: i <= j < |s| ==> events.items[j] == s[j]
    {
      events.items := events.items[i := Upper(events.items[i])];
      i := i + 1;
    }
    forall j | 0 <= j < |s|
      ensures events.items[j] == Uppercased(s)[j]
    {
      UppercasedAt(s, j);
    }
  }

  /** The sample event: the intended loop submits exactly one upper-cased name. */
  lemma UppercasedSample()
    ensures Uppercased(["post_published"]) == ["POST_PUBLISHED"]
  {
    UppercasedAt(["post_published"], 0);
    UpperSample();
  }

  lemma {:induction false} CycleSingle(s: seq<string>, j: nat)
    requires |s| == 1
    ensures Cycle(s, j) == s[0]
    decreases j
  {
    if j >= 1 {
      CycleSingle(s, j - 1);
    }
  }

  /** The same sample under the appending loop: after any number of steps it is still running and growing. */
  lemma {:induction false} AppendedSample(k: nat)
    ensures k < |Grown(["post_published"], k)| == k + 1
    ensures forall j :: 1 <= j <= k ==> Grown(["post_published"], k)[j] == "POST_PUBLISHED"
  {
    var s := ["post_published"];
    UpperSample();
    forall j | 1 <= j <= k
      ensures Grown(s, k)[j] == "POST_PUBLISHED"
    {
      CycleSingle(s, j - 1);
    }
  }
}
