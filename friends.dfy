/**
 * Friend records and the pure rules over the friend list: which friend is
 * selected, how selecting toggles, how a split bill moves the selected
 * friend's balance, and how a balance is shown.
 */
module Friends {
  import opened Optional

  /** A friend's identifier, kept as text: the seed friends' numbers in decimal, new friends' UUIDs. */
  type Id = string

  /** One friend. `balance` < 0: the user owes the friend; > 0: the friend owes the user. */
  datatype Friend = Friend(id: Id, name: string, image: string, balance: int)

  /** No two records of the list share an id. */
  predicate UniqueIds(fs: seq<Friend>) {
    forall i, j :: 0 <= i < j < |fs| ==> fs[i].id != fs[j].id
  }

  /** No record of the list carries `id`. */
  predicate FreshId(fs: seq<Friend>, id: Id) {
    forall i :: 0 <= i < |fs| ==> fs[i].id != id
  }

  /** The three friends the app starts with. */
  function Seed(): (fs: seq<Friend>)
    ensures |fs| == 3 && UniqueIds(fs)
    ensures fs[0].name == "Clark" && fs[0].balance == -7
    ensures fs[1].name == "Sarah" && fs[1].balance == 20
    ensures fs[2].name == "Anthony" && fs[2].balance == 0
  {
    [ Friend("118836", "Clark", "https://i.pravatar.cc/48?u=118836", -7),
      Friend("933372", "Sarah", "https://i.pravatar.cc/48?u=933372", 20),
      Friend("499476", "Anthony", "https://i.pravatar.cc/48?u=499476", 0) ]
  }

  // ---------------------------------------------------------------------
  // Selection
  // ---------------------------------------------------------------------

  /** `f` is the selected friend: its id equals the selection's id (never so when nothing is selected). */
  predicate IsSelected(f: Friend, selected: Option<Friend>) {
    selected.Some? && f.id == selected.value.id
  }

  /** The selection after the user picks `f`: cleared when `f` was the selected one, otherwise `f`. */
  function Toggle(cur: Option<Friend>, f: Friend): (r: Option<Friend>)
    ensures r.None? <==> IsSelected(f, cur)
    ensures r.Some? ==> r.value == f
  {
    if IsSelected(f, cur) then None else Some(f)
  }

  /** After picking `f`, a friend `g` is selected exactly when it has `f`'s id and `f` was not selected before. */
  lemma SelectedAfterToggle(cur: Option<Friend>, f: Friend, g: Friend)
    ensures IsSelected(g, Toggle(cur, f)) <==> g.id == f.id && !IsSelected(f, cur)
  {
  }

  /** Picking a friend that is not selected twice in a row leaves nothing selected. */
  lemma SelectTwiceClears(cur: Option<Friend>, f: Friend)
    requires !IsSelected(f, cur)
    ensures Toggle(cur, f) == Some(f)
    ensures Toggle(Toggle(cur, f), f) == None
  {
  }

  /** Picking the selected friend twice in a row selects it again. */
  lemma SelectTwiceReselects(cur: Option<Friend>, f: Friend)
    requires IsSelected(f, cur)
    ensures Toggle(cur, f) == None
    ensures Toggle(Toggle(cur, f), f) == Some(f)
  {
  }

  // ---------------------------------------------------------------------
  // Balance adjustment
  // ---------------------------------------------------------------------

  /** One record after a split: the selected friend's balance moves by `value`. */
  function Adjusted(f: Friend, selected: Option<Friend>, value: int): Friend {
    if IsSelected(f, selected) then f.(balance := f.balance + value) else f
  }

  /** The friend list after a split of `value` against the selection. */
  function AdjustSelected(fs: seq<Friend>, selected: Option<Friend>, value: int): (r: seq<Friend>)
    ensures |r| == |fs|
    ensures forall i :: 0 <= i < |fs| ==>
      r[i].id == fs[i].id && r[i].name == fs[i].name && r[i].image == fs[i].image
    ensures forall i :: 0 <= i < |fs| ==>
      r[i].balance == if IsSelected(fs[i], selected) then fs[i].balance + value else fs[i].balance
    ensures selected.None? ==> r == fs
    ensures UniqueIds(fs) ==> UniqueIds(r)
  {
    if fs == [] then [] else [Adjusted(fs[0], selected, value)] + AdjustSelected(fs[1..], selected, value)
  }

  /** The sum of all balances: what the friends owe the user, net. */
  function TotalBalance(fs: seq<Friend>): int {
    if fs == [] then 0 else fs[0].balance + TotalBalance(fs[1..])
  }

  /** How many records of the list are the selected friend. */
  function CountSelected(fs: seq<Friend>, selected: Option<Friend>): nat {
    if fs == [] then 0 else (if IsSelected(fs[0], selected) then 1 else 0) + CountSelected(fs[1..], selected)
  }

  /** The total of a list with `x` in front is `x`'s balance plus the total of the rest. */
  lemma TotalCons(x: Friend, rest: seq<Friend>)
    ensures TotalBalance([x] + rest) == x.balance + TotalBalance(rest)
  {
    assert ([x] + rest)[1..] == rest;
  }

  /** A split moves the total balance by `value` once for every record with the selected id. */
  lemma {:induction false} TotalAfterAdjust(fs: seq<Friend>, selected: Option<Friend>, value: int)
    ensures TotalBalance(AdjustSelected(fs, selected, value))
         == TotalBalance(fs) + value * CountSelected(fs, selected)
  {
    if fs != [] {
      var head := Adjusted(fs[0], selected, value);
      var tail := AdjustSelected(fs[1..], selected, value);
      var k := CountSelected(fs[1..], selected);
      assert AdjustSelected(fs, selected, value) == [head] + tail;
      TotalCons(head, tail);
      TotalAfterAdjust(fs[1..], selected, value);
      assert TotalBalance(fs) == fs[0].balance + TotalBalance(fs[1..]);
      if IsSelected(fs[0], selected) {
        assert head.balance == fs[0].balance + value;
        assert CountSelected(fs, selected) == 1 + k;
        MulStep(value, k);
      } else {
        assert head.balance == fs[0].balance;
        assert CountSelected(fs, selected) == k;
      }
    }
  }

  /** Multiplication distributes over one more record. */
  lemma MulStep(v: int, k: int)
    ensures v * (1 + k) == v + v * k
  {
  }

  /** With no record carrying the selected id, no record counts as selected. */
  lemma {:induction false} NoneSelected(fs: seq<Friend>, selected: Option<Friend>)
    requires selected.Some? && FreshId(fs, selected.value.id)
    ensures CountSelected(fs, selected) == 0
  {
    if fs != [] {
      NoneSelected(fs[1..], selected);
    }
  }

  /** With unique ids, a selected friend taken from the list is the only record it matches. */
  lemma {:induction false} SelectedOnce(fs: seq<Friend>, selected: Option<Friend>)
    requires UniqueIds(fs) && selected.Some? && selected.value in fs
    ensures CountSelected(fs, selected) == 1
  {
    if fs[0].id == selected.value.id {
      NoneSelected(fs[1..], selected);
    } else {
      assert selected.value in fs[1..];
      SelectedOnce(fs[1..], selected);
    }
  }

  /** In a well-formed list, a split moves the total balance by exactly `value`. */
  lemma SplitMovesTotalBy(fs: seq<Friend>, selected: Option<Friend>, value: int)
    requires UniqueIds(fs) && selected.Some? && selected.value in fs
    ensures TotalBalance(AdjustSelected(fs, selected, value)) == TotalBalance(fs) + value
  {
    TotalAfterAdjust(fs, selected, value);
    SelectedOnce(fs, selected);
  }

  // ---------------------------------------------------------------------
  // How a balance is shown
  // ---------------------------------------------------------------------

  /** The line shown under a friend: "You owe …", "… owes you …" or "You and … are even". */
  datatype Standing = YouOwe(amount: int) | OwesYou(amount: int) | Even

  /** Which of the three lines a balance shows, with the positive amount it names. */
  function StandingOf(balance: int): (s: Standing)
    ensures s.YouOwe? <==> balance < 0
    ensures s.OwesYou? <==> balance > 0
    ensures s.Even? <==> balance == 0
    ensures !s.Even? ==> s.amount > 0
  {
    if balance < 0 then YouOwe(-balance)
    else if balance > 0 then OwesYou(balance)
    else Even
  }

  /** The balance a shown line stands for. */
  function BalanceOf(s: Standing): int {
    match s
    case YouOwe(a) => -a
    case OwesYou(a) => a
    case Even => 0
  }

  /** The shown line determines the balance, and every line with a positive amount is shown by its balance. */
  lemma StandingRoundTrip(balance: int, s: Standing)
    ensures BalanceOf(StandingOf(balance)) == balance
    ensures (s.Even? || s.amount > 0) ==> StandingOf(BalanceOf(s)) == s
  {
  }
}
