/**
 * The checklist screens: the advanced-wipe selection and the backup
 * selection. Both keep the checked items as a list in click order, and a
 * click removes a checked item or appends an unchecked one.
 */
module Selection {
  import opened Lists
  import opened Types
  import TerminalLogs

  /** `handleToggle` on the list of checked items. */
  function Toggle(selected: seq<string>, item: string): (r: seq<string>)
    ensures forall y :: y != item ==> (y in r <==> y in selected)
    ensures item in r <==> item !in selected
    ensures item in selected ==> SubsequenceOf(r, selected)
    ensures item !in selected ==> r == selected + [item]
  {
    if item in selected then Without(selected, item) else selected + [item]
  }

  /** A click never checks an item twice. */
  lemma ToggleKeepsDistinct(selected: seq<string>, item: string)
    requires Distinct(selected)
    ensures Distinct(Toggle(selected, item))
  {
  }

  /** Two clicks on the same item give back the same checked set; when the
      item started unchecked they give back the very same list. */
  lemma ToggleTwice(selected: seq<string>, item: string)
    ensures forall y :: y in Toggle(Toggle(selected, item), item) <==> y in selected
    ensures item !in selected ==> Toggle(Toggle(selected, item), item) == selected
  {
    if item !in selected {
      WithoutLastAppended(selected, item);
    }
  }

  /** Unchecking and re-checking an item moves it to the end of the list. */
  lemma RecheckMovesToEnd(selected: seq<string>, item: string)
    requires item in selected
    ensures Toggle(Toggle(selected, item), item) == Without(selected, item) + [item]
  {
  }

  /** Removing an item just appended to a list without it gives the list
      back. */
  lemma WithoutLastAppended(s: seq<string>, x: string)
    requires x !in s
    ensures Without(s + [x], x) == s
  {
    assert (s + [x])[..|s|] == s;
  }

  /** The items a list may hold are those offered. */
  predicate Within(selected: seq<string>, offered: seq<string>)
  {
    forall y :: y in selected ==> y in offered
  }

  /** Clicking an offered item keeps the list within the offer. */
  lemma ToggleWithin(selected: seq<string>, offered: seq<string>, item: string)
    requires Within(selected, offered) && item in offered
    ensures Within(Toggle(selected, item), offered)
  {
  }

  /** The confirm button shared by both checklists: `onConfirm(selected)`,
      with the button disabled while the list is empty. */
  function ConfirmPayload(selected: seq<string>): (payload: Option<seq<string>>)
    ensures payload == None <==> selected == []
    ensures payload.Some? ==> payload.value == selected
  {
    if |selected| == 0 then None else Some(selected)
  }

  const WipePartitions: seq<string> :=
    ["Dalvik / ART Cache", "System", "Data", "Internal Storage", "Cache", "MicroSD Card", "USB OTG"]

  /** Every checkbox of the advanced-wipe screen: the partitions, then the
      special and the experimental actions. */
  const AdvancedWipeItems: seq<string> :=
    WipePartitions + TerminalLogs.SpecialOptions + TerminalLogs.AlphaOptions

  const BackupPartitions: seq<string> := ["System", "Data"]

  /** The advanced-wipe selection screen. */
  class AdvancedWipeScreen {
    var selected: seq<string>

    predicate Valid()
      reads this
    {
      Distinct(selected) && Within(selected, AdvancedWipeItems)
    }

    /** Nothing is checked when the screen opens. */
    constructor()
      ensures Valid() && selected == []
    {
      selected := [];
    }

    /** `handleToggle`, called by the checkbox of `item`. */
    method HandleToggle(item: string)
      requires Valid() && item in AdvancedWipeItems
      modifies this
      ensures Valid()
      ensures selected == Toggle(old(selected), item)
    {
      if item in selected {
        selected := Without(selected, item);
      } else {
        selected := selected + [item];
      }
    }

    /** The confirm button: disabled while nothing is checked, otherwise it
        passes the checked items in click order, each once and each one of
        the screen's checkboxes. */
    function Confirm(): (payload: Option<seq<string>>)
      reads this
      requires Valid()
      ensures payload == None <==> selected == []
      ensures payload.Some? ==> payload.value == selected
      ensures payload.Some? ==> Distinct(payload.value) && Within(payload.value, AdvancedWipeItems)
    {
      ConfirmPayload(selected)
    }
  }

  /** The backup selection screen. */
  class BackupScreen {
    var selected: seq<string>

    predicate Valid()
      reads this
    {
      Distinct(selected) && Within(selected, BackupPartitions)
    }

    /** Both partitions are checked when the screen opens. */
    constructor()
      ensures Valid() && selected == ["System", "Data"]
    {
      selected := ["System", "Data"];
    }

    /** `handleToggle`, called by the checkbox of `partition`. */
    method HandleToggle(partition: string)
      requires Valid() && partition in BackupPartitions
      modifies this
      ensures Valid()
      ensures selected == Toggle(old(selected), partition)
    {
      if partition in selected {
        selected := Without(selected, partition);
      } else {
        selected := selected + [partition];
      }
    }

    /** The confirm button: disabled while nothing is checked, otherwise it
        passes the checked partitions, each once and each one of System and
        Data. */
    function Confirm(): (payload: Option<seq<string>>)
      reads this
      requires Valid()
      ensures payload == None <==> selected == []
      ensures payload.Some? ==> payload.value == selected
      ensures payload.Some? ==> Distinct(payload.value) && Within(payload.value, BackupPartitions)
    {
      ConfirmPayload(selected)
    }
  }
}
