/**
 * The user profile record and its expense mapping. A Python `dict` of
 * category to amount is an association list here: keys are unique and the
 * order is insertion order, which the spending insights and `dict.update`
 * both observe.
 */
module Profile {
  import opened Wrappers

  /** One `category: amount` entry of the monthly expense mapping. */
  datatype Expense = Expense(category: string, amount: real)

  /** The stored profile (`UserProfile` dataclass); `age` and the goals are informational. */
  datatype UserProfile = UserProfile(
    userType: string,
    age: int,
    income: Option<real>,
    expenses: seq<Expense>,
    financialGoals: seq<string>,
    riskTolerance: string)

  const Student := "student"
  const Professional := "professional"

  /** Python truthiness of the optional income: `None` and `0` are both false. */
  predicate HasIncome(income: Option<real>) {
    income.Some? && income.value != 0.0
  }

  /** The categories of an expense mapping. */
  function Keys(e: seq<Expense>): set<string> {
    if |e| == 0 then {} else {e[0].category} + Keys(e[1..])
  }

  /** The dictionary invariant: no category appears twice. */
  predicate UniqueKeys(e: seq<Expense>) {
    |e| == 0 || (e[0].category !in Keys(e[1..]) && UniqueKeys(e[1..]))
  }

  /** `expenses[category]` if present. */
  function Lookup(e: seq<Expense>, category: string): (r: Option<real>)
    ensures r.Some? <==> category in Keys(e)
  {
    if |e| == 0 then None
    else if e[0].category == category then Some(e[0].amount)
    else Lookup(e[1..], category)
  }

  /** `expenses.get(category, 0)`. */
  function Get(e: seq<Expense>, category: string): real {
    Lookup(e, category).GetOr(0.0)
  }

  /** `sum(expenses.values())`. */
  function Total(e: seq<Expense>): real {
    if |e| == 0 then 0.0 else e[0].amount + Total(e[1..])
  }

  /** `expenses[category] = amount`: overwrite in place, or append a new key. */
  function Put(e: seq<Expense>, category: string, amount: real): seq<Expense> {
    if |e| == 0 then [Expense(category, amount)]
    else if e[0].category == category then [Expense(category, amount)] + e[1..]
    else [e[0]] + Put(e[1..], category, amount)
  }

  /** `a.update(b)`: every entry of `b`, in order, is put into `a`. */
  function Merge(a: seq<Expense>, b: seq<Expense>): seq<Expense>
    decreases |b|
  {
    if |b| == 0 then a else Merge(Put(a, b[0].category, b[0].amount), b[1..])
  }

  /** An entry put under `category` is found there; every other category is untouched. */
  lemma {:induction false} PutLookup(e: seq<Expense>, category: string, amount: real, c: string)
    ensures Lookup(Put(e, category, amount), c) == if c == category then Some(amount) else Lookup(e, c)
  {
    if |e| > 0 && e[0].category != category {
      PutLookup(e[1..], category, amount, c);
    }
  }

  /** Putting adds exactly the category, keeps the keys unique, and leaves existing entries in place. */
  lemma {:induction false} PutShape(e: seq<Expense>, category: string, amount: real)
    ensures Keys(Put(e, category, amount)) == Keys(e) + {category}
    ensures UniqueKeys(e) ==> UniqueKeys(Put(e, category, amount))
    ensures |e| <= |Put(e, category, amount)|
    ensures forall i :: 0 <= i < |e| ==> Put(e, category, amount)[i].category == e[i].category
  {
    if |e| > 0 && e[0].category != category {
      PutShape(e[1..], category, amount);
    }
  }

  /** After `a.update(b)` a category holds `b`'s amount if `b` has it, otherwise `a`'s. */
  lemma {:induction false} MergeLookup(a: seq<Expense>, b: seq<Expense>, c: string)
    requires UniqueKeys(b)
    ensures Lookup(Merge(a, b), c) == if c in Keys(b) then Lookup(b, c) else Lookup(a, c)
    decreases |b|
  {
    if |b| > 0 {
      var a' := Put(a, b[0].category, b[0].amount);
      MergeLookup(a', b[1..], c);
      PutLookup(a, b[0].category, b[0].amount, c);
    }
  }

  /**
   * `a.update(b)` has the keys of both, stays a dictionary, and keeps every
   * existing category at its insertion position (new ones go after).
   */
  lemma {:induction false} MergeShape(a: seq<Expense>, b: seq<Expense>)
    ensures Keys(Merge(a, b)) == Keys(a) + Keys(b)
    ensures UniqueKeys(a) ==> UniqueKeys(Merge(a, b))
    ensures |a| <= |Merge(a, b)|
    ensures forall i :: 0 <= i < |a| ==> Merge(a, b)[i].category == a[i].category
    decreases |b|
  {
    if |b| > 0 {
      var a' := Put(a, b[0].category, b[0].amount);
      PutShape(a, b[0].category, b[0].amount);
      MergeShape(a', b[1..]);
    }
  }
}
