/** The financial-essentials checklist: six insurance items that can be
    ticked in any order, a progress figure, and the email form that saves
    the list. */
module InsuranceChecklist {
  import opened JsValues

  datatype Item = Item(id: int, title: string, description: string, checked: bool)

  /** The six items the checklist starts with, none of them ticked. */
  const DefaultChecklist: seq<Item> := [
    Item(1, "Term Life Insurance", "10-15x annual income coverage", false),
    Item(2, "Health Insurance", "\U{20B9}10L+ coverage for family", false),
    Item(3, "Emergency Fund", "6-12 months of expenses", false),
    Item(4, "Critical Illness Cover", "Additional \U{20B9}10L+ coverage", false),
    Item(5, "Personal Accident Cover", "\U{20B9}50L+ accidental death benefit", false),
    Item(6, "Disability Insurance", "Income replacement coverage", false)
  ]

  /** The ids are 1, 2, ... in list order, hence distinct. */
  predicate NumberedInOrder(list: seq<Item>) {
    forall k :: 0 <= k < |list| ==> list[k].id == k + 1
  }

  /** The item counterpart of handleCheck: the one with the id flips its tick. */
  function ToggleItem(item: Item, id: int): Item {
    if item.id == id then item.(checked := !item.checked) else item
  }

  /** handleCheck: `map` over the list, flipping the tick of the items
      carrying `id` and nothing else. */
  function Toggle(list: seq<Item>, id: int): (r: seq<Item>)
    ensures |r| == |list|
    ensures forall k :: 0 <= k < |list| ==>
      r[k].id == list[k].id && r[k].title == list[k].title && r[k].description == list[k].description
    ensures forall k :: 0 <= k < |list| ==> (r[k].checked != list[k].checked <==> list[k].id == id)
  {
    if |list| == 0 then [] else [ToggleItem(list[0], id)] + Toggle(list[1..], id)
  }

  /** Ticking the same item twice gives back the list it started from. */
  lemma {:induction false} ToggleTwiceRestores(list: seq<Item>, id: int)
    ensures Toggle(Toggle(list, id), id) == list
  {
    if |list| > 0 {
      ToggleTwiceRestores(list[1..], id);
      assert Toggle(list, id)[1..] == Toggle(list[1..], id);
    }
  }

  /** An id no item carries leaves the list as it is. */
  lemma {:induction false} ToggleUnknownId(list: seq<Item>, id: int)
    requires forall k :: 0 <= k < |list| ==> list[k].id != id
    ensures Toggle(list, id) == list
  {
    if |list| > 0 {
      ToggleUnknownId(list[1..], id);
    }
  }

  /** checkedCount: the number of ticked items. */
  function CheckedCount(list: seq<Item>): (n: nat)
    ensures n <= |list|
    ensures n == 0 <==> forall k :: 0 <= k < |list| ==> !list[k].checked
    ensures n == |list| <==> forall k :: 0 <= k < |list| ==> list[k].checked
  {
    if |list| == 0 then 0 else (if list[0].checked then 1 else 0) + CheckedCount(list[1..])
  }

  /** With distinct ids, ticking an item that is present moves the count by
      exactly one: up when it was unticked, down when it was ticked. */
  lemma {:induction false} ToggleMovesCountByOne(list: seq<Item>, i: nat, id: int)
    requires i < |list| && list[i].id == id
    requires forall k :: 0 <= k < |list| && k != i ==> list[k].id != id
    ensures CheckedCount(Toggle(list, id)) == CheckedCount(list) + (if list[i].checked then -1 else 1)
  {
    assert Toggle(list, id)[1..] == Toggle(list[1..], id);
    if i == 0 {
      ToggleUnknownId(list[1..], id);
    } else {
      ToggleMovesCountByOne(list[1..], i - 1, id);
    }
  }

  /** progress: the ticked share as a percentage. The list always holds six
      items, so the division is defined. */
  function Progress(list: seq<Item>): (p: real)
    requires |list| > 0
    ensures 0.0 <= p <= 100.0
    ensures p == 0.0 <==> CheckedCount(list) == 0
    ensures p == 100.0 <==> CheckedCount(list) == |list|
  {
    var n := |list| as real;
    RatioMonotone(CheckedCount(list) as real, n, n);
    RatioAtLeast(CheckedCount(list) as real, n, 1.0);
    (CheckedCount(list) as real / n) * 100.0
  }

  /** The default list: six numbered items, nothing ticked, progress 0. */
  lemma DefaultChecklistStartsEmpty()
    ensures |DefaultChecklist| == 6 && NumberedInOrder(DefaultChecklist)
    ensures CheckedCount(DefaultChecklist) == 0 && Progress(DefaultChecklist) == 0.0
  {
  }

  /** The component's state: the list, the email field and whether the form
      has been submitted. */
  class Checklist {
    var checklist: seq<Item>
    var email: string
    var submitted: bool

    /** Six items numbered 1 to 6; ticking keeps this. */
    predicate Valid()
      reads this
    {
      |checklist| == 6 && NumberedInOrder(checklist)
    }

    constructor()
      ensures checklist == DefaultChecklist && email == "" && !submitted
      ensures Valid()
    {
      checklist := DefaultChecklist;
      email := "";
      submitted := false;
    }

    /** The progress shown above the list. */
    function CurrentProgress(): (p: real)
      reads this
      requires Valid()
      ensures 0.0 <= p <= 100.0
    {
      Progress(checklist)
    }

    /** The checkbox handler of the item with this id. */
    method HandleCheck(id: int)
      requires Valid()
      modifies this
      ensures Valid()
      ensures checklist == Toggle(old(checklist), id)
      ensures email == old(email) && submitted == old(submitted)
    {
      checklist := Toggle(checklist, id);
    }

    /** The email input's change handler. */
    method SetEmail(value: string)
      modifies this
      ensures email == value
      ensures checklist == old(checklist) && submitted == old(submitted)
    {
      email := value;
    }

    /** handleSubmit: only a non-empty email marks the checklist submitted;
        an empty one changes nothing. */
    method HandleSubmit()
      modifies this
      ensures submitted <==> old(submitted) || email != ""
      ensures email == "" ==> submitted == old(submitted)
      ensures checklist == old(checklist) && email == old(email)
    {
      if email != "" {
        submitted := true;
      }
    }
  }
}
