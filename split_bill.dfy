/**
 * The split-bill form: the bill and "your expense" drafts, the friend's share
 * derived from them, the guard on editing "your expense", and the signed
 * value a submission hands to the app.
 */
module FormSplitBill {
  import opened Optional

  /** Who pays the bill: the select's 'user' and 'friend' options. */
  datatype Payer = User | FriendPays

  /** An amount field: `None` is the empty text field `''`, `Some(n)` a number typed in. */
  type Amount = Option<int>

  /** The field reads as true: neither empty nor zero. */
  predicate IsSet(a: Amount) {
    a.Some? && a.value != 0
  }

  /** The field as a number in a comparison or a subtraction, where the empty field reads as 0. */
  function Num(a: Amount): int {
    a.GetOr(0)
  }

  /**
   * The friend's share shown in the disabled field: what is left of the bill
   * after the user's expense, and empty unless the bill is set and exceeds it.
   */
  function PaidByFriend(bill: Amount, paidByUser: Amount): (r: Amount)
    ensures r.Some? <==> IsSet(bill) && Num(bill) > Num(paidByUser)
    ensures r.Some? ==> r.value > 0 && Num(paidByUser) + r.value == Num(bill)
  {
    if IsSet(bill) && Num(bill) > Num(paidByUser) then Some(Num(bill) - Num(paidByUser)) else None
  }

  /**
   * "Your expense" after the user types `input` into it: an input above the
   * bill is rejected and `current` kept.
   */
  function AcceptExpense(current: Amount, bill: Amount, input: int): (r: Amount)
    ensures input > Num(bill) ==> r == current
    ensures input <= Num(bill) ==> r == Some(input)
    ensures Num(current) <= Num(bill) ==> Num(r) <= Num(bill)
  {
    if input > Num(bill) then current else Some(input)
  }

  /**
   * The value a submission hands to the app, or none when the bill or the
   * expense is empty or zero: when the user pays, the friend owes the share
   * shown (an empty share counts as 0); when the friend pays, the user owes
   * their own expense.
   */
  function SubmitValue(bill: Amount, paidByUser: Amount, payer: Payer): (r: Amount)
    ensures r.None? <==> !IsSet(bill) || !IsSet(paidByUser)
    ensures r.Some? && payer == User ==> r.value >= 0
    ensures r.Some? && payer == User && Num(bill) > Num(paidByUser) ==>
      r.value + Num(paidByUser) == Num(bill)
    ensures r.Some? && payer == User && Num(bill) <= Num(paidByUser) ==> r.value == 0
    ensures r.Some? && payer == FriendPays ==> r.value == -Num(paidByUser)
    ensures r.Some? && payer == FriendPays && Num(paidByUser) > 0 ==> r.value < 0
  {
    if !IsSet(bill) || !IsSet(paidByUser) then None
    else if payer == User then Some(PaidByFriend(bill, paidByUser).GetOr(0))
    else Some(-Num(paidByUser))
  }

  /** What the submit handler as written hands over: nothing, a number, or the empty text `''`. */
  datatype Emitted = Skip | Number(n: int) | EmptyText

  /** The submit rule as written: when the user pays, the share is passed on as shown, `''` included. */
  function SubmitValueAsWritten(bill: Amount, paidByUser: Amount, payer: Payer): (r: Emitted)
    ensures r.Skip? <==> !IsSet(bill) || !IsSet(paidByUser)
    ensures r.EmptyText? <==>
      IsSet(bill) && IsSet(paidByUser) && payer == User && PaidByFriend(bill, paidByUser).None?
  {
    if !IsSet(bill) || !IsSet(paidByUser) then Skip
    else if payer == User then
      match PaidByFriend(bill, paidByUser)
      case Some(v) => Number(v)
      case None => EmptyText
    else Number(-Num(paidByUser))
  }

  /** As written, a bill not above the user's expense shows no share, yet passes the guard and hands `''` to the app. */
  lemma EqualAmountsEmitText()
    ensures PaidByFriend(Some(50), Some(50)).None?
    ensures SubmitValueAsWritten(Some(50), Some(50), User) == EmptyText
    ensures SubmitValueAsWritten(Some(20), Some(30), User) == EmptyText
  {
  }

  /** The corrected rule agrees with the code wherever the code hands over a number, and gives 0 for `''`. */
  lemma SubmitValueCorrects(bill: Amount, paidByUser: Amount, payer: Payer)
    ensures SubmitValueAsWritten(bill, paidByUser, payer).Skip? <==> SubmitValue(bill, paidByUser, payer).None?
    ensures SubmitValueAsWritten(bill, paidByUser, payer).Number? ==>
      SubmitValue(bill, paidByUser, payer) == Some(SubmitValueAsWritten(bill, paidByUser, payer).n)
    ensures SubmitValueAsWritten(bill, paidByUser, payer).EmptyText? ==>
      SubmitValue(bill, paidByUser, payer) == Some(0)
  {
  }

  /** The draft state of the split-bill form. */
  class Draft {
    var bill: Amount
    var paidByUser: Amount
    var whoIsPaying: Payer

    /** A freshly shown form: both amounts empty, the user paying. */
    constructor ()
      ensures bill == None && paidByUser == None && whoIsPaying == User
    {
      bill := None;
      paidByUser := None;
      whoIsPaying := User;
    }

    /** The user types `v` as the bill; no check against the expense is made. */
    method SetBill(v: int)
      modifies this
      ensures bill == Some(v)
      ensures paidByUser == old(paidByUser) && whoIsPaying == old(whoIsPaying)
    {
      bill := Some(v);
    }

    /** The user types `v` as their expense; a value above the bill is rejected. */
    method SetPaidByUser(v: int)
      modifies this
      ensures paidByUser == AcceptExpense(old(paidByUser), bill, v)
      ensures bill == old(bill) && whoIsPaying == old(whoIsPaying)
    {
      if v <= Num(bill) {
        paidByUser := Some(v);
      }
    }

    /** The user picks who pays. */
    method SetWhoIsPaying(p: Payer)
      modifies this
      ensures whoIsPaying == p
      ensures bill == old(bill) && paidByUser == old(paidByUser)
    {
      whoIsPaying := p;
    }

    /** The friend's share the form shows. */
    function Share(): Amount
      reads this
    {
      PaidByFriend(bill, paidByUser)
    }

    /** Submission: the value handed to the app, if any; the drafts stay as they are. */
    method Submit() returns (value: Amount)
      ensures value == SubmitValue(bill, paidByUser, whoIsPaying)
    {
      if !IsSet(bill) || !IsSet(paidByUser) {
        return None;
      }
      if whoIsPaying == User {
        value := Some(Share().GetOr(0));
      } else {
        value := Some(-paidByUser.value);
      }
    }
  }

  /** Bill 100 with expense 30 gives +70 when the user pays and -30 when the friend pays. */
  method SplitHundredThirty() returns (userPays: Amount, friendPays: Amount)
    ensures userPays == Some(70) && friendPays == Some(-30)
  {
    var form := new Draft();
    form.SetBill(100);
    form.SetPaidByUser(30);
    userPays := form.Submit();
    form.SetWhoIsPaying(FriendPays);
    friendPays := form.Submit();
  }

  /** With bill 100 and expense 30, typing 120 as the expense keeps 30. */
  method RejectExpenseAboveBill() returns (kept: Amount)
    ensures kept == Some(30)
  {
    var form := new Draft();
    form.SetBill(100);
    form.SetPaidByUser(30);
    form.SetPaidByUser(120);
    kept := form.paidByUser;
  }
}
