/**
 * The root component: the add-friend flag, the friend list and the
 * selection, with one method per handler and the wiring of the two forms'
 * submissions.
 */
module EatAndSplit {
  import opened Optional
  import opened Friends
  import FormAddFriend
  import FormSplitBill

  class App {
    var addFormIsOpen: bool
    var friends: seq<Friend>
    var selectedFriend: Option<Friend>

    /** Ids are unique and the selected friend, if any, is a record of the list. */
    ghost predicate Valid()
      reads this
    {
      UniqueIds(friends) && (selectedFriend.Some? ==> selectedFriend.value in friends)
    }

    /** The app as it starts: the form closed, the seed friends, nothing selected. */
    constructor ()
      ensures Valid()
      ensures !addFormIsOpen && friends == Seed() && selectedFriend == None
    {
      addFormIsOpen := false;
      friends := Seed();
      selectedFriend := None;
    }

    /** The "Add friend" / "Close" button flips whether the add-friend form is shown. */
    method ShowFormAddFriend()
      requires Valid()
      modifies this
      ensures Valid()
      ensures addFormIsOpen == !old(addFormIsOpen)
      ensures friends == old(friends) && selectedFriend == old(selectedFriend)
    {
      addFormIsOpen := !addFormIsOpen;
    }

    /** The "Select" / "Close" button of a listed friend: toggles the selection and closes the add-friend form. */
    method Selection(friend: Friend)
      requires Valid() && friend in friends
      modifies this
      ensures Valid()
      ensures selectedFriend == Toggle(old(selectedFriend), friend)
      ensures !addFormIsOpen
      ensures friends == old(friends)
    {
      selectedFriend := Toggle(selectedFriend, friend);
      addFormIsOpen := false;
    }

    /** Appends a newly created friend and closes the add-friend form. */
    method AddFriend(friend: Friend)
      requires Valid() && FreshId(friends, friend.id)
      modifies this
      ensures Valid()
      ensures friends == old(friends) + [friend]
      ensures !addFormIsOpen
      ensures selectedFriend == old(selectedFriend)
    {
      friends := friends + [friend];
      addFormIsOpen := false;
    }

    /** Applies a split: the selected friend's balance moves by `value`, then the selection is cleared. */
    method FriendBalance(value: int)
      requires Valid()
      modifies this
      ensures Valid()
      ensures friends == AdjustSelected(old(friends), old(selectedFriend), value)
      ensures old(selectedFriend).Some? ==> TotalBalance(friends) == TotalBalance(old(friends)) + value
      ensures selectedFriend == None
      ensures addFormIsOpen == old(addFormIsOpen)
    {
      if selectedFriend.Some? {
        SplitMovesTotalBy(friends, selectedFriend, value);
      }
      friends := AdjustSelected(friends, selectedFriend, value);
      selectedFriend := None;
    }

    /** The add-friend form is submitted with the fresh id `id`; the new friend, if any, is added. */
    method SubmitAddFriend(form: FormAddFriend.Draft, id: Id)
      requires Valid() && FreshId(friends, id)
      modifies this, form
      ensures Valid()
      ensures var added := FormAddFriend.NewFriend(old(form.name), old(form.image), id);
        if added.Some? then
          && friends == old(friends) + [added.value]
          && !addFormIsOpen && selectedFriend == old(selectedFriend)
          && form.name == [] && form.image == FormAddFriend.BaseImage
        else
          && friends == old(friends) && addFormIsOpen == old(addFormIsOpen)
          && selectedFriend == old(selectedFriend)
          && form.name == old(form.name) && form.image == old(form.image)
    {
      var added := form.Submit(id);
      if added.Some? {
        AddFriend(added.value);
      }
    }

    /** The split-bill form is submitted; its value, if any, is applied to the selected friend. */
    method SubmitSplitBill(form: FormSplitBill.Draft)
      requires Valid()
      modifies this
      ensures Valid()
      ensures var value := FormSplitBill.SubmitValue(form.bill, form.paidByUser, form.whoIsPaying);
        if value.Some? then
          && friends == AdjustSelected(old(friends), old(selectedFriend), value.value)
          && selectedFriend == None && addFormIsOpen == old(addFormIsOpen)
        else
          && friends == old(friends) && selectedFriend == old(selectedFriend)
          && addFormIsOpen == old(addFormIsOpen)
    {
      var value := form.Submit();
      if value.Some? {
        FriendBalance(value.value);
      }
    }
  }

  /** From the seed list, selecting Sarah and splitting 50 with expense 20, the user paying, leaves Sarah at 50 and nothing selected. */
  method SplitWithSarah() returns (balance: int, cleared: bool)
    ensures balance == 50 && cleared
  {
    var app := new App();
    var sarah := app.friends[1];
    app.Selection(sarah);
    var form := new FormSplitBill.Draft();
    form.SetBill(50);
    form.SetPaidByUser(20);
    app.SubmitSplitBill(form);
    balance := app.friends[1].balance;
    cleared := app.selectedFriend.None?;
  }

  /** Opening the add-friend form and selecting Clark twice leaves nothing selected and the form closed. */
  method SelectClarkTwice() returns (selected: Option<Friend>, formOpen: bool)
    ensures selected.None? && !formOpen
  {
    var app := new App();
    app.ShowFormAddFriend();
    var clark := app.friends[0];
    app.Selection(clark);
    app.Selection(clark);
    selected, formOpen := app.selectedFriend, app.addFormIsOpen;
  }

  /** Submitting the add-friend form with an empty name adds nobody and keeps the form open. */
  method EmptyNameAddsNobody(id: Id) returns (count: nat, formOpen: bool)
    requires FreshId(Seed(), id)
    ensures count == 3 && formOpen
  {
    var app := new App();
    app.ShowFormAddFriend();
    var form := new FormAddFriend.Draft();
    app.SubmitAddFriend(form, id);
    count, formOpen := |app.friends|, app.addFormIsOpen;
  }

  /** Adding a named friend appends one record with a zero balance and closes the form. */
  method AddAnna(id: Id) returns (count: nat, last: Friend, formOpen: bool)
    requires FreshId(Seed(), id)
    ensures count == 4 && last.name == "Anna" && last.id == id && last.balance == 0 && !formOpen
  {
    var app := new App();
    app.ShowFormAddFriend();
    var form := new FormAddFriend.Draft();
    form.SetName("Anna");
    app.SubmitAddFriend(form, id);
    count, last, formOpen := |app.friends|, app.friends[|app.friends| - 1], app.addFormIsOpen;
  }
}
