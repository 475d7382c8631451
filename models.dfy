/**
 * The ledger account record, `SimpleTrialBalance`: four input fields and a
 * derived closing balance that every save recomputes, with its two text
 * renderings.
 */
module Models {
  import opened Wrappers
  import opened Decimal

  /** One row of the trial balance. `closing` is derived: no form or caller sets it. */
  datatype Account = Account(name: string, number: int, opening: int, activity: int, closing: int)

  /** The derived-field invariant every persisted account satisfies. */
  predicate Balanced(a: Account) {
    a.closing == a.opening + a.activity
  }

  /** `save`: overwrite the closing balance from the opening balance and the activity. */
  function Save(a: Account): (r: Account)
    ensures Balanced(r)
    ensures r.name == a.name && r.number == a.number
    ensures r.opening == a.opening && r.activity == a.activity
  {
    a.(closing := a.opening + a.activity)
  }

  /**
   * A record built from the four form inputs and saved. The closing balance
   * it starts with before the save does not matter (see SaveIgnoresClosing);
   * 0 stands for the unset field.
   */
  function NewAccount(name: string, number: int, opening: int, activity: int): (r: Account)
    ensures Balanced(r)
    ensures r.name == name && r.number == number && r.opening == opening && r.activity == activity
  {
    Save(Account(name, number, opening, activity, 0))
  }

  /** The stored closing balance depends only on the opening balance and the activity. */
  lemma SaveIgnoresClosing(a: Account, c: int)
    ensures Save(a.(closing := c)) == Save(a)
  {
  }

  /** Saving an already-saved record changes nothing. */
  lemma SaveIdempotent(a: Account)
    ensures Save(Save(a)) == Save(a)
  {
  }

  /** Save leaves a record alone exactly when it already satisfies the invariant. */
  lemma SaveFixedPoints(a: Account)
    ensures Save(a) == a <==> Balanced(a)
  {
  }

  const Separator := " | "

  /** `__str__`: "<name> | <number>". */
  function Str(a: Account): string {
    a.name + Separator + IntToString(a.number)
  }

  /** `__repr__`: "<name> | <number> | <opening> | <activity> | <closing>". */
  function Repr(a: Account): string {
    a.name + Separator + IntToString(a.number) + Separator + IntToString(a.opening)
      + Separator + IntToString(a.activity) + Separator + IntToString(a.closing)
  }

  // ---------------------------------------------------------------------
  // Reading the renderings back. This parser is not part of the system; it
  // is the independent definition that pins the two formats down. A rendered
  // integer never contains '|' (NoBarInInt), so the last bar of a rendering
  // always separates columns, whatever the name holds: the parser peels
  // columns off from the right.

  /** The position of the last '|' in `s`, if there is one. */
  function LastBar(s: string): (r: Option<nat>)
    ensures r.Some? ==> r.value < |s| && s[r.value] == '|'
    ensures r.None? ==> '|' !in s
  {
    if s == [] then None
    else if s[|s| - 1] == '|' then Some(|s| - 1)
    else
      var r := LastBar(s[..|s| - 1]);
      assert r.None? ==> s == s[..|s| - 1] + [s[|s| - 1]];
      r
  }

  /** Splits "<rest> | <int>" into the rest and the integer, at the last bar. */
  function PeelColumn(s: string): Option<(string, int)> {
    var i :- LastBar(s);
    if 1 <= i && s[i - 1] == ' ' && i + 1 < |s| && s[i + 1] == ' ' then
      var n :- ParseInt(s[i + 2..]);
      Some((s[..i - 1], n))
    else None
  }

  /** Reads "<name> | <number>" back into its two fields. */
  function ParseStr(s: string): Option<(string, int)> {
    PeelColumn(s)
  }

  /** Reads the five-column rendering back into an account. */
  function ParseRepr(s: string): Option<Account> {
    var c :- PeelColumn(s);
    var v :- PeelColumn(c.0);
    var o :- PeelColumn(v.0);
    var n :- PeelColumn(o.0);
    Some(Account(n.0, n.1, o.1, v.1, c.1))
  }

  lemma {:induction false} LastBarBefore(x: string, y: string)
    requires '|' !in y
    ensures LastBar(x + "|" + y) == Some(|x|)
    decreases |y|
  {
    var s := x + "|" + y;
    if y != [] {
      var y' := y[..|y| - 1];
      assert s[..|s| - 1] == x + "|" + y';
      assert s[|s| - 1] == y[|y| - 1];
      assert '|' !in y';
      LastBarBefore(x, y');
    }
  }

  /** Whatever `p` holds, the last column of `p + " | " + str(n)` peels off as `n`. */
  lemma PeelRoundTrip(p: string, n: int)
    ensures PeelColumn(p + Separator + IntToString(n)) == Some((p, n))
  {
    var d := IntToString(n);
    var s := p + Separator + d;
    NoBarInInt(n);
    assert '|' !in " " + d;
    assert s == (p + " ") + "|" + (" " + d);
    LastBarBefore(p + " ", " " + d);
    var i := |p| + 1;
    assert s[i + 2..] == d;
    assert s[..i - 1] == p;
    IntRoundTrip(n);
  }

  /** `__str__` can be read back to the name and the number, for every name. */
  lemma StrRoundTrip(a: Account)
    ensures ParseStr(Str(a)) == Some((a.name, a.number))
  {
    PeelRoundTrip(a.name, a.number);
  }

  /** `__repr__` can be read back to the whole account, for every name. */
  lemma ReprRoundTrip(a: Account)
    ensures ParseRepr(Repr(a)) == Some(a)
  {
    var p1 := a.name + Separator + IntToString(a.number);
    var p2 := p1 + Separator + IntToString(a.opening);
    var p3 := p2 + Separator + IntToString(a.activity);
    assert Repr(a) == p3 + Separator + IntToString(a.closing);
    PeelRoundTrip(p3, a.closing);
    PeelRoundTrip(p2, a.activity);
    PeelRoundTrip(p1, a.opening);
    PeelRoundTrip(a.name, a.number);
  }

  /** Two accounts render alike under `__repr__` only if they are equal. */
  lemma ReprInjective(a: Account, b: Account)
    requires Repr(a) == Repr(b)
    ensures a == b
  {
    ReprRoundTrip(a);
    ReprRoundTrip(b);
  }

  /** Two accounts render alike under `__str__` only if their names and numbers agree. */
  lemma StrInjective(a: Account, b: Account)
    requires Str(a) == Str(b)
    ensures a.name == b.name && a.number == b.number
  {
    StrRoundTrip(a);
    StrRoundTrip(b);
  }

  /** `__str__` is the first two columns of `__repr__`. */
  lemma StrPrefixOfRepr(a: Account)
    ensures Str(a) <= Repr(a)
    ensures Repr(a) == Str(a) + Separator + IntToString(a.opening) + Separator
      + IntToString(a.activity) + Separator + IntToString(a.closing)
  {
  }
}
