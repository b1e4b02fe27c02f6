# Eat-and-split: a Dafny model of the bill-splitting state layer

The app keeps a list of friends. Each friend has an id, a name, an avatar image and a running
balance. Positive means the friend owes the user; negative means the user owes the friend. The
user can add friends through a small form. They can select one friend (selecting the same friend
again deselects it). With a friend selected, a split-bill form takes the bill and the user's own
expense, shows the friend's share, and on submission moves that friend's balance by a signed
amount.

This project models the state transitions behind that UI, all of which live in `src/App.jsx`:

- `friends.dfy` (module `Friends`) holds the friend record and the seed list. It also holds the
  pure rules: "is this friend selected", the selection toggle, the balance update mapped over the
  list, and the three-way balance display. Lemmas cover the toggle, the balance update and the
  display.
- `add_friend.dfy` (module `FormAddFriend`) holds the add-friend form. The class `Draft` has its
  two text fields. `NewFriend` is the submit rule: empty fields do nothing, the image gets the id
  appended, and the balance starts at 0.
- `split_bill.dfy` (module `FormSplitBill`) holds the split-bill form. The class `Draft` has its
  three fields. It also holds the derived share, the guard on editing "your expense", and the
  signed submit value.
- `app.dfy` (module `EatAndSplit`) holds the class `App`. It has the three state fields of the
  root component and one method per handler. It also wires each form's submission to those
  handlers, and has client methods that replay short user sessions (select Sarah and split a bill,
  select Clark twice, add a friend) against the contracts.
- `optional.dfy` (module `Optional`) holds the `Option` type. It stands for `null` and for an
  empty text field.

Modelling choices:

- Amounts are `int`.
- An empty amount field `''` is `None`. When JavaScript compares or subtracts numbers, `''`
  reads as 0; `Num` does the same, and for integers this matches the code exactly.
- Truthiness: `''` and `0` are both falsy (`IsSet`).
- The selection stores the friend record itself, as the code does. "Is selected" compares ids
  only.
- Ids are text. The seed friends' numeric ids are kept as their decimal digits.
- A new friend's id is passed in as a parameter (see Left out).
- Each handler is one atomic update of the state.

Two behaviours of the code are easy to misread; the model follows the code:

- "Your expense <= bill" is checked only when "your expense" is edited. Lowering the bill
  afterwards is not checked, so the bill can end up below the expense. `AcceptExpense` states the
  invariant the edit guard keeps.
- The bill is not required to be non-negative. Whatever number is typed is stored.

## Model

| member | source | states |
|---|---|---|
| `Friends.Seed` | src/App.jsx:3-22 | The start list: Clark -7, Sarah 20, Anthony 0, with distinct ids. |
| `Friends.Toggle` | src/App.jsx:42 | Picking `f` gives no selection exactly when `f`'s id is the current selection's id. Otherwise it selects `f`. |
| `Friends.SelectedAfterToggle` | src/App.jsx:42 | After picking `f`, a friend `g` counts as selected if and only if `g` has `f`'s id and `f` was not selected before. |
| `Friends.SelectTwiceClears` | src/App.jsx:42 | Picking an unselected friend twice selects it and then clears the selection. |
| `Friends.SelectTwiceReselects` | src/App.jsx:42 | Picking the selected friend twice clears the selection and then selects it again. |
| `Friends.AdjustSelected` | src/App.jsx:53-59 | The list keeps its length and every id, name and image. Records with the selected id get `balance + value`; all other records keep their balance. With no selection the list is unchanged. Unique ids stay unique. |
| `Friends.TotalAfterAdjust` | src/App.jsx:53-59 | The sum of all balances moves by `value` times the number of records with the selected id. |
| `Friends.NoneSelected` | src/App.jsx:55 | If no record carries the selected id, no record is adjusted. |
| `Friends.SelectedOnce` | src/App.jsx:53-59 | With unique ids, a selected friend taken from the list matches exactly one record. |
| `Friends.SplitMovesTotalBy` | src/App.jsx:52-60 | In a list with unique ids, a split moves the total of all balances by exactly the submitted value. |
| `Friends.StandingOf` | src/App.jsx:107-117 | Exactly one of three lines is shown. "You owe" if and only if the balance is negative, "owes you" if and only if positive, "even" if and only if zero. The amount shown is positive. |
| `Friends.StandingRoundTrip` | src/App.jsx:107-117 | The line shown determines the balance. Every line with a positive amount is the line of exactly its balance. |
| `FormAddFriend.NewFriend` | src/App.jsx:129-134 | No friend if and only if the name or the image is empty. Otherwise the friend has the given id and name, balance 0, and image = the draft image followed by `?=` and the id. |
| `FormAddFriend.DistinctIdsDistinctImages` | src/App.jsx:134 | Two friends added from the same image URL with different ids get different image references. |
| `FormAddFriend.Draft.constructor` | src/App.jsx:126-127 | A new form starts with an empty name and the base avatar URL. |
| `FormAddFriend.Draft.SetName` | src/App.jsx:145 | Editing the name field replaces the name and nothing else. |
| `FormAddFriend.Draft.SetImage` | src/App.jsx:148-152 | Editing the image field replaces the image and nothing else. |
| `FormAddFriend.Draft.Submit` | src/App.jsx:129-141 | Returns `NewFriend` of the drafts and the given id. On success both drafts reset to `''` and the base URL. On the empty-field path nothing changes. |
| `FormSplitBill.PaidByFriend` | src/App.jsx:164 | The share is present if and only if the bill is set (neither empty nor zero) and exceeds the expense. When present it is positive, and share + expense = bill. |
| `FormSplitBill.AcceptExpense` | src/App.jsx:189-191 | An input above the bill is rejected and the old value kept. Any other input is taken. Expense <= bill is preserved by every edit of the expense. |
| `FormSplitBill.SubmitValue` | src/App.jsx:167-173 | No value if and only if the bill or the expense is empty or zero. User pays: the value is non-negative, and equals bill - expense when the bill exceeds the expense, otherwise 0. Friend pays: the value is -expense, which is negative for a positive expense. |
| `FormSplitBill.SubmitValueAsWritten` | src/App.jsx:169-171 | The code's own rule: skip if and only if either field is unset. It hands over `''` if and only if the user pays and no share is shown. |
| `FormSplitBill.EqualAmountsEmitText` | src/App.jsx:164-171 | Bill 50 with expense 50: no share is shown, the guard passes, and with the user paying the code hands `''` to the app. The same happens for bill 20 with expense 30. |
| `FormSplitBill.SubmitValueCorrects` | src/App.jsx:164-171 | The corrected rule skips exactly when the code does. It gives the same number wherever the code hands over a number, and gives 0 where the code hands over `''`. |
| `FormSplitBill.Draft.constructor` | src/App.jsx:160-162 | A new form starts with both amounts empty and the user paying. |
| `FormSplitBill.Draft.SetBill` | src/App.jsx:179-183 | Editing the bill stores the number typed, with no check against the expense. Nothing else changes. |
| `FormSplitBill.Draft.SetPaidByUser` | src/App.jsx:186-192 | Editing the expense applies `AcceptExpense`. Nothing else changes. |
| `FormSplitBill.Draft.SetWhoIsPaying` | src/App.jsx:198-200 | Picking the payer changes only the payer. |
| `FormSplitBill.Draft.Submit` | src/App.jsx:167-173 | Returns `SubmitValue` of the current drafts without changing them. |
| `FormSplitBill.SplitHundredThirty` | src/App.jsx:164-173 | Bill 100 with expense 30 gives +70 when the user pays and -30 when the friend pays. |
| `FormSplitBill.RejectExpenseAboveBill` | src/App.jsx:189-191 | With bill 100 and expense 30, typing 120 as the expense keeps 30. |
| `EatAndSplit.App.constructor` | src/App.jsx:33-35 | The app starts with the form closed, the seed list and nothing selected. |
| `EatAndSplit.App.ShowFormAddFriend` | src/App.jsx:37-39 | The form flag is negated, so two calls restore it. The list and the selection are unchanged. |
| `EatAndSplit.App.Selection` | src/App.jsx:41-44 | The selection becomes `Toggle` of the old one. The add-friend form is closed whatever it was before. The list is unchanged. The invariant (unique ids, selection in the list) is kept. |
| `EatAndSplit.App.AddFriend` | src/App.jsx:46-51 | The list becomes the old list followed by the new friend, so it grows by one and earlier records keep their order. The form is closed and the selection is unchanged. |
| `EatAndSplit.App.FriendBalance` | src/App.jsx:52-61 | The list becomes `AdjustSelected` of the old list, old selection and value. With a friend selected, the total of all balances moves by exactly the value. The selection is cleared and the form flag is unchanged. |
| `EatAndSplit.App.SubmitAddFriend` | src/App.jsx:129-141 | A successful submission appends `NewFriend`, closes the form and resets the drafts. A submission with an empty field changes nothing. |
| `EatAndSplit.App.SubmitSplitBill` | src/App.jsx:167-173 | When the form yields a value, the balance update is applied and the selection is cleared. Otherwise nothing changes. |
| `EatAndSplit.SplitWithSarah` | src/App.jsx:52-61 | From the seed list: select Sarah, then split a bill of 50 with expense 20, the user paying. Sarah's balance becomes 50 and nothing is selected. |
| `EatAndSplit.SelectClarkTwice` | src/App.jsx:41-44 | Open the form, then select Clark twice. Nothing is selected and the form is closed. |
| `EatAndSplit.EmptyNameAddsNobody` | src/App.jsx:131 | Submitting the add-friend form with an empty name leaves three friends and the form open. |
| `EatAndSplit.AddAnna` | src/App.jsx:46-51 | Adding a named friend gives four friends. The last one has that name, the new id and balance 0. The form is closed. |

## Left out

- Rendering is not modelled: the JSX markup, the `Button` and `FriendsList` components, the highlighted row and the button labels. The three-way balance line is kept as `StandingOf`.
- `console.log` calls are output only and change no state.
- `crypto.randomUUID()` is a foreign call. The fresh id is a parameter. `App.AddFriend` and `App.SubmitAddFriend` require that the id is not in the list yet, which is what the random UUID provides.
- `EatAndSplit.App.Selection` requires that the picked friend is in the list. Only `FriendsList` calls it, and always with one of its own records. That requirement, together with unique ids, is the invariant `Valid()`.
- JavaScript number parsing is not modelled. Unary `+` on the text input can give `NaN` or a fraction. Amounts here are integers, so `NaN` (which the expense guard would let through) and fractions are not modelled.
- React runtime behaviour is not modelled: batching of `useState` updates, the stale `selectedFriend` read from the render closure, and mounting and unmounting of the forms. The model does not discard a form's drafts when the form is hidden. A new form is a new `Draft`.
- The external avatar service is not modelled. An image is an opaque URL string.
- FormSplitBill.Draft.Submit: returns the corrected value 0 where the code at src/App.jsx:171 hands `''` to `handleFriendBalance` (see Findings); the model does not reproduce the balance turning into text.
- EatAndSplit.App.SubmitSplitBill: applies that corrected 0 to the selected friend where the code would add `''` to the balance (see Findings).

## Findings

| source | as written | input that shows it | evidently intended | confidence | as-written member | corrected member |
|---|---|---|---|---|---|---|
| src/App.jsx:171 | When the user pays, the value handed on is `paidByFriend`. That is `''` whenever the bill does not exceed the expense, and `friend.balance + ''` then turns the balance into text. | Select Sarah (balance 20) and split bill 50 with expense 50, the user paying: the balance becomes the text `"20"`. A later split of 100 with expense 30, the user paying, makes it `"2070"`. Reaching bill < expense needs only lowering the bill after entering the expense. | The friend owes nothing, so the value is 0 and the balance stays a number. | not executed; high for bill = expense, medium for bill < expense | `FormSplitBill.EqualAmountsEmitText` | `FormSplitBill.SubmitValue` |
