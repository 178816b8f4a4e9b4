/**
 * The first-failure searches both drafts run: a loop over a list that stops
 * at the first element failing a test and reports it.
 */
module Search {
  import opened Python

  /** xs[i] is the first element of xs that is not in ys. */
  predicate IsFirstOutside(xs: seq<string>, ys: set<string>, i: int) {
    0 <= i < |xs| && xs[i] !in ys && forall j :: 0 <= j < i ==> xs[j] in ys
  }

  /** `for x in xs: if x not in ys: return x`: the position of the first such x, or |xs|. */
  function FirstOutside(xs: seq<string>, ys: set<string>): (i: nat)
    ensures i <= |xs|
    ensures forall j :: 0 <= j < i ==> xs[j] in ys
    ensures i < |xs| ==> IsFirstOutside(xs, ys, i)
  {
    if xs == [] || xs[0] !in ys then 0 else 1 + FirstOutside(xs[1..], ys)
  }

  /** A scan that stops at i, having passed everything before it, stops where FirstOutside says. */
  lemma FirstOutsideAt(xs: seq<string>, ys: set<string>, i: nat)
    requires i <= |xs| && (forall j :: 0 <= j < i ==> xs[j] in ys) && (i < |xs| ==> xs[i] !in ys)
    ensures FirstOutside(xs, ys) == i
  {
  }

  /** One row of a category map: a field name and the Python list of its allowed values. */
  type Category = (string, seq<Value>)

  /** The field is present and `value in allowed` holds. */
  predicate Admits(c: Category, obs: map<string, Value>) {
    c.0 in obs && Contains(c.1, obs[c.0])
  }

  /** table[i] is the first row, in map order, that the observation fails. */
  predicate IsFirstRejected(table: seq<Category>, obs: map<string, Value>, i: int) {
    0 <= i < |table| && !Admits(table[i], obs) && forall j :: 0 <= j < i ==> Admits(table[j], obs)
  }

  /** The loop over a category map: the position of the first row the observation fails, or |table|. */
  function FirstRejected(table: seq<Category>, obs: map<string, Value>): (i: nat)
    ensures i <= |table|
    ensures forall j :: 0 <= j < i ==> Admits(table[j], obs)
    ensures i < |table| ==> IsFirstRejected(table, obs, i)
  {
    if table == [] || !Admits(table[0], obs) then 0 else 1 + FirstRejected(table[1..], obs)
  }
}
