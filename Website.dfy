/**
 * The vendor-portal screen's license lookup: a login is classified after a
 * simulated delay, and the result replaces the previous one.
 */
module Website {
  import opened Text
  import opened Types

  const EmptyLoginMessage := "Please enter a login to search."

  /** The lookup result for a non-empty login: the one known login is
      active (printed in lower case), short logins are expired Samsung
      licenses, and the rest are unknown. */
  function Classify(login: string): (r: string)
    ensures ToLower(login) == "theprofgh" ==>
      r == "Login: theprofgh\nStatus: Active\nLicense: Universal Pack (All Brands)"
    ensures ToLower(login) != "theprofgh" && |login| < 5 ==>
      r == "Login: " + login + "\nStatus: Expired\nLicense: Samsung"
    ensures ToLower(login) != "theprofgh" && |login| >= 5 ==>
      r == "Login: " + login + "\nStatus: Not Found\nNo active license associated with this login."
  {
    if ToLower(login) == "theprofgh" then "Login: theprofgh\nStatus: Active\nLicense: Universal Pack (All Brands)"
    else if |login| < 5 then "Login: " + login + "\nStatus: Expired\nLicense: Samsung"
    else "Login: " + login + "\nStatus: Not Found\nNo active license associated with this login."
  }

  /** The known login matches in any letter case, and only at its own
      length, so the three outcomes never overlap. */
  lemma ActiveLogins(login: string)
    ensures ToLower(login) == "theprofgh" <==>
      |login| == 9 && forall i :: 0 <= i < 9 ==> LowerChar(login[i]) == "theprofgh"[i]
    ensures ToLower(login) == "theprofgh" ==> |login| >= 5
  {
    if |login| == 9 && forall i :: 0 <= i < 9 ==> LowerChar(login[i]) == "theprofgh"[i] {
      assert ToLower(login) == "theprofgh";
    }
  }

  class WebsiteScreen {
    var loginToSearch: string
    var searchResult: Option<string>
    var isSearching: bool
    /** The login a running search was started with; the delayed callback
        classifies this one, whatever is typed meanwhile. */
    var pending: Option<string>

    predicate Valid()
      reads this
    {
      && (isSearching <==> pending.Some?)
      && (isSearching ==> searchResult == None)
    }

    constructor()
      ensures Valid()
      ensures loginToSearch == "" && searchResult == None && !isSearching
    {
      loginToSearch := "";
      searchResult := None;
      isSearching := false;
      pending := None;
    }

    /** Typing into the login field. */
    method SetLogin(value: string)
      requires Valid()
      modifies this
      ensures Valid()
      ensures loginToSearch == value
      ensures searchResult == old(searchResult) && isSearching == old(isSearching) && pending == old(pending)
    {
      loginToSearch := value;
    }

    /** `handleSearch` (the button is disabled while a search runs): an
        empty login is refused at once; otherwise the old result is cleared
        and the search starts. */
    method HandleSearch()
      requires Valid() && !isSearching
      modifies this
      ensures Valid()
      ensures loginToSearch == old(loginToSearch)
      ensures old(loginToSearch) == "" ==> searchResult == Some(EmptyLoginMessage) && !isSearching
      ensures old(loginToSearch) != "" ==>
        isSearching && searchResult == None && pending == Some(old(loginToSearch))
    {
      if loginToSearch == "" {
        searchResult := Some(EmptyLoginMessage);
        return;
      }
      isSearching := true;
      searchResult := None;
      pending := Some(loginToSearch);
    }

    /** The delayed callback of a running search. */
    method SearchFinished()
      requires Valid() && isSearching
      modifies this
      ensures Valid()
      ensures searchResult == Some(Classify(old(pending).value)) && !isSearching
      ensures loginToSearch == old(loginToSearch)
    {
      searchResult := Some(Classify(pending.value));
      isSearching := false;
      pending := None;
    }
  }
}
