/**
 * The Azaman campus-wallet mock-up (pages/azaman/index.tsx): sending money
 * from a balance, favourite businesses, the business directory and the
 * recipient suggestions. Nothing here touches local storage.
 */
module Azaman {
  import opened Wrappers
  import opened Lists
  import opened Text

  datatype Business = Business(
    id: int, name: string, category: string, rating: real, reviews: nat,
    distance: string, verified: bool)

  /** The directory's mock businesses and clubs. */
  const Businesses: seq<Business> := [
    Business(1, "Campus Print Shop", "Printing", 4.8, 124, "0.2km", true),
    Business(2, "Student Cafe", "Food", 4.6, 89, "0.5km", true),
    Business(3, "Tech Society", "Club", 4.9, 67, "0.3km", true)
  ]

  /** A wallet transaction; `kind` is the record's `type` field. */
  datatype Transaction = Transaction(id: int, to: string, amount: real, time: string, kind: string)

  const InitialTransactions: seq<Transaction> := [
    Transaction(1, "Campus Print Shop", 15.0, "2 min ago", "payment"),
    Transaction(2, "Sarah Johnson", 25.0, "1 hour ago", "send"),
    Transaction(3, "Tech Society", 10.0, "3 hours ago", "payment")
  ]

  const SuggestionUsers: seq<string> :=
    ["Sarah Johnson", "Michael Appiah", "UG Bookshop", "Tech Society", "Campus Print Shop"]

  const InvalidSendMessage := "Enter a valid recipient and amount"
  const SentMessage := "Payment sent successfully"

  /** How many suggestions are shown at most. */
  const MaxSuggestions: nat := 5

  // ---------------------------------------------------------------------------
  // Sending money

  /** `!recipient || isNaN(amount) || amount <= 0`, negated; a NaN amount is `None`. */
  predicate SendAccepted(recipient: string, amount: Option<real>) {
    recipient != "" && amount.Some? && amount.value > 0.0
  }

  /** A payment the send form accepted. */
  datatype Payment = Payment(to: string, amount: real)

  /**
   * The validation in `handleSend`: the recipient is trimmed, and the
   * payment is refused exactly when the trimmed recipient is empty, the
   * amount is NaN or the amount is not positive.
   */
  function ValidateSend(recipientInput: string, amount: Option<real>): (r: Option<Payment>)
    ensures r.None? <==> !SendAccepted(Trim(recipientInput), amount)
    ensures r.Some? ==> r.value.to == Trim(recipientInput) && r.value.to != "" && Some(r.value.amount) == amount && r.value.amount > 0.0
  {
    var recipient := Trim(recipientInput);
    if recipient == "" || amount.None? || amount.value <= 0.0 then None else Some(Payment(recipient, amount.value))
  }

  /** `Math.max(0, x)`. */
  function NonNegative(x: real): (r: real)
    ensures r >= 0.0 && r >= x
    ensures r == x || r == 0.0
  {
    if x > 0.0 then x else 0.0
  }

  /** Every id is between 1 and the number of transactions, and no two transactions share one. */
  ghost predicate IdsNumberTransactions(tx: seq<Transaction>) {
    (forall i :: 0 <= i < |tx| ==> 1 <= tx[i].id <= |tx|) &&
    (forall i, j :: 0 <= i < j < |tx| ==> tx[i].id != tx[j].id)
  }

  /** Prepending a transaction numbered one past the length keeps the numbering. */
  lemma PrependKeepsNumbering(tx: seq<Transaction>, t: Transaction)
    requires IdsNumberTransactions(tx) && t.id == |tx| + 1
    ensures IdsNumberTransactions([t] + tx)
  {
    var r := [t] + tx;
    forall i, j | 0 <= i < j < |r| ensures r[i].id != r[j].id {
      if i == 0 {
        assert r[j] == tx[j - 1];
      } else {
        assert r[i] == tx[i - 1] && r[j] == tx[j - 1];
      }
    }
  }

  // ---------------------------------------------------------------------------
  // Business directory

  datatype DirectoryFilter = All | Food | Services | Clubs {
    function Name(): string {
      match this
      case All => "all"
      case Food => "Food"
      case Services => "Services"
      case Clubs => "Clubs"
    }
  }

  /** `selectedFilter.replace('Services', 'Printing')`: only "Services" is renamed. */
  function CategoryAsWritten(f: DirectoryFilter): (c: string)
    ensures f == Services ==> c == "Printing"
    ensures f != Services ==> c == f.Name()
  {
    if f == Services then "Printing" else f.Name()
  }

  /** The category each filter button is evidently meant to match, "Club" for the Clubs button. */
  function CategoryFor(f: DirectoryFilter): (c: string)
    ensures f == Clubs ==> c == "Club"
    ensures f != Clubs ==> c == CategoryAsWritten(f)
  {
    match f
    case Clubs => "Club"
    case _ => CategoryAsWritten(f)
  }

  /** The name contains the query, both lower-cased. */
  predicate NameMatches(b: Business, query: string) {
    Contains(ToLower(b.name), ToLower(query))
  }

  /** The first filter of the business list, with `category` the category the button stands for. */
  predicate InCategory(b: Business, filter: DirectoryFilter, category: string) {
    filter == All || b.category == category
  }

  /** A business passes both filters of the business list. */
  predicate Listed(b: Business, filter: DirectoryFilter, category: string, query: string) {
    InCategory(b, filter, category) && NameMatches(b, query)
  }

  /**
   * The two chained filters of the business list: exactly the listed
   * businesses, each as often as given, in the given order.
   */
  function DirectoryWith(businesses: seq<Business>, filter: DirectoryFilter, category: string, query: string): (r: seq<Business>)
    ensures IsSubsequence(r, businesses)
    ensures forall b :: multiset(r)[b] == if Listed(b, filter, category, query) then multiset(businesses)[b] else 0
    ensures forall i :: 0 <= i < |r| ==> Listed(r[i], filter, category, query)
  {
    var p := (b: Business) => InCategory(b, filter, category);
    var q := (b: Business) => NameMatches(b, query);
    var m := Filter(businesses, p);
    var r := Filter(m, q);
    FilterIsSubsequence(businesses, p);
    FilterIsSubsequence(m, q);
    SubsequenceTransitive(r, m, businesses);
    forall b ensures multiset(r)[b] == if Listed(b, filter, category, query) then multiset(businesses)[b] else 0 {
      FilterCount(businesses, p, b);
      FilterCount(m, q, b);
    }
    forall i | 0 <= i < |r| ensures Listed(r[i], filter, category, query) {
      assert multiset(r)[r[i]] > 0;
    }
    r
  }

  /** The business list exactly as the page computes it. */
  function DirectoryAsWritten(businesses: seq<Business>, filter: DirectoryFilter, query: string): (r: seq<Business>)
    ensures IsSubsequence(r, businesses)
    ensures forall b :: multiset(r)[b] == if Listed(b, filter, CategoryAsWritten(filter), query) then multiset(businesses)[b] else 0
  {
    DirectoryWith(businesses, filter, CategoryAsWritten(filter), query)
  }

  /** The business list with the Clubs button matching the "Club" category. */
  function Directory(businesses: seq<Business>, filter: DirectoryFilter, query: string): (r: seq<Business>)
    ensures IsSubsequence(r, businesses)
    ensures forall b :: multiset(r)[b] == if Listed(b, filter, CategoryFor(filter), query) then multiset(businesses)[b] else 0
    ensures forall i :: 0 <= i < |r| ==> Listed(r[i], filter, CategoryFor(filter), query)
  {
    DirectoryWith(businesses, filter, CategoryFor(filter), query)
  }

  /** As written, the Clubs button shows nothing whenever no business has the category "Clubs". */
  lemma ClubsShowsNothingAsWritten(businesses: seq<Business>, query: string)
    requires forall i :: 0 <= i < |businesses| ==> businesses[i].category != "Clubs"
    ensures DirectoryAsWritten(businesses, Clubs, query) == []
  {
  }

  /** So the directory's club, Tech Society, is never shown under Clubs, whatever the search text. */
  lemma ClubHiddenAsWritten(query: string)
    ensures Businesses[2].category == "Club"
    ensures Businesses[2] !in DirectoryAsWritten(Businesses, Clubs, query)
  {
    ClubsShowsNothingAsWritten(Businesses, query);
  }

  /** A list whose multiset is `{t}` is `[t]`. */
  lemma SingletonByCount(r: seq<Business>, t: Business)
    requires multiset(r) == multiset{t}
    ensures r == [t]
  {
    assert |r| == |multiset(r)| == 1;
    assert r[0] in multiset(r);
  }

  /** With the intended mapping and an empty search, the Clubs button shows exactly the club. */
  lemma ClubsShowsClub()
    ensures Directory(Businesses, Clubs, "") == [Businesses[2]]
  {
    var r := Directory(Businesses, Clubs, "");
    var t := Businesses[2];
    assert NameMatches(t, "") by {
      ContainsEmpty(ToLower(t.name));
    }
    assert multiset(r)[t] == 1;
    assert multiset(r) == multiset{t};
    SingletonByCount(r, t);
  }

  /** "Services" stands for the "Printing" category: with an empty search it shows exactly the print shop. */
  lemma ServicesShowsPrintShop()
    ensures Directory(Businesses, Services, "") == [Businesses[0]]
    ensures DirectoryAsWritten(Businesses, Services, "") == [Businesses[0]]
  {
    var r := Directory(Businesses, Services, "");
    var t := Businesses[0];
    assert NameMatches(t, "") by {
      ContainsEmpty(ToLower(t.name));
    }
    assert !Listed(Businesses[1], Services, "Printing", "") && !Listed(Businesses[2], Services, "Printing", "");
    assert multiset(r)[t] == 1;
    assert multiset(r) == multiset{t};
    SingletonByCount(r, t);
    assert DirectoryAsWritten(Businesses, Services, "") == r;
  }

  /** "All" with an empty search lists every business, in order, as written and as intended alike. */
  lemma AllWithEmptyQuery(businesses: seq<Business>)
    ensures Directory(businesses, All, "") == businesses
    ensures DirectoryAsWritten(businesses, All, "") == businesses
  {
    assert CategoryAsWritten(All) == CategoryFor(All);
    var r := Directory(businesses, All, "");
    forall b ensures multiset(r)[b] == multiset(businesses)[b] {
      ContainsEmpty(ToLower(b.name));
    }
    assert multiset(r) == multiset(businesses);
    assert |r| == |multiset(r)| == |businesses|;
    SubsequenceLength(r, businesses);
  }

  /** `businesses.filter(b => favorites.includes(b.id))`: the favourites section. */
  function FavoriteBusinesses(businesses: seq<Business>, favorites: seq<int>): (r: seq<Business>)
    ensures IsSubsequence(r, businesses)
    ensures forall i :: 0 <= i < |r| ==> r[i].id in favorites
    ensures forall i :: 0 <= i < |businesses| && businesses[i].id in favorites ==> businesses[i] in r
    ensures forall b :: multiset(r)[b] == if b.id in favorites then multiset(businesses)[b] else 0
  {
    var p := (b: Business) => b.id in favorites;
    FilterIsSubsequence(businesses, p);
    forall b ensures multiset(Filter(businesses, p))[b] == if b.id in favorites then multiset(businesses)[b] else 0 {
      FilterCount(businesses, p, b);
    }
    Filter(businesses, p)
  }

  // ---------------------------------------------------------------------------
  // Recipient suggestions

  /** The suggestion users whose name contains the query, both lower-cased. */
  function MatchingUsers(users: seq<string>, query: string): (r: seq<string>)
    ensures IsSubsequence(r, users)
    ensures forall i :: 0 <= i < |r| ==> Contains(ToLower(r[i]), ToLower(query))
    ensures forall i :: 0 <= i < |users| ==> (users[i] in r <==> Contains(ToLower(users[i]), ToLower(query)))
    ensures forall u :: multiset(r)[u] == if Contains(ToLower(u), ToLower(query)) then multiset(users)[u] else 0
  {
    var p := (s: string) => Contains(ToLower(s), ToLower(query));
    FilterIsSubsequence(users, p);
    forall u ensures multiset(Filter(users, p))[u] == if Contains(ToLower(u), ToLower(query)) then multiset(users)[u] else 0 {
      FilterCount(users, p, u);
    }
    Filter(users, p)
  }

  /**
   * The suggestion list: nothing for an empty query, otherwise the first
   * five matching users, in list order.
   */
  function Suggestions(users: seq<string>, query: string): (r: seq<string>)
    ensures query == "" ==> r == []
    ensures |r| <= MaxSuggestions
    ensures query != "" ==> r <= MatchingUsers(users, query)
    ensures query != "" && |MatchingUsers(users, query)| <= MaxSuggestions ==> r == MatchingUsers(users, query)
    ensures query != "" && |MatchingUsers(users, query)| >= MaxSuggestions ==> |r| == MaxSuggestions
    ensures IsSubsequence(r, users)
    ensures forall i :: 0 <= i < |r| ==> Contains(ToLower(r[i]), ToLower(query))
  {
    if query == "" then
      []
    else
      var m := MatchingUsers(users, query);
      var r := Take(m, MaxSuggestions);
      assert r <= m && |r| == if |m| <= MaxSuggestions then |m| else MaxSuggestions;
      PrefixIsSubsequence(r, m, users);
      forall i | 0 <= i < |r| ensures Contains(ToLower(r[i]), ToLower(query)) {
        assert r[i] == m[i];
      }
      r
  }

  // ---------------------------------------------------------------------------
  // Page state

  /** The app's state. The two send-form inputs are uncontrolled fields; the amount is already parsed (`None` is NaN). */
  class AzamanApp {
    var balance: real
    var transactions: seq<Transaction>
    var favorites: seq<int>
    var showSuccess: bool
    var toast: string
    var amountInput: Option<real>
    var recipientInput: string
    var searchQuery: string
    var findQuery: string
    var selectedFilter: DirectoryFilter

    /** The balance is never negative, ids number the transactions, favourites hold no duplicates. */
    ghost predicate Valid()
      reads this
    {
      balance >= 0.0 && IdsNumberTransactions(transactions) && NoDuplicates(favorites)
    }

    constructor ()
      ensures Valid()
      ensures balance == 250.0 && transactions == InitialTransactions && favorites == []
      ensures !showSuccess && toast == "" && amountInput == None && recipientInput == ""
      ensures searchQuery == "" && findQuery == "" && selectedFilter == All
    {
      balance := 250.0;
      transactions := InitialTransactions;
      favorites := [];
      showSuccess := false;
      toast := "";
      amountInput := None;
      recipientInput := "";
      searchQuery := "";
      findQuery := "";
      selectedFilter := All;
    }

    /**
     * `handleSend`: a trimmed-empty recipient, a NaN amount or an amount
     * that is not positive only raises the error toast. Otherwise the
     * balance drops by the amount but not below zero, one transaction
     * numbered one past the old count is put first, the success screen and
     * toast show, and both inputs are cleared.
     */
    method HandleSend()
      requires Valid()
      modifies this`balance, this`transactions, this`showSuccess, this`toast, this`amountInput, this`recipientInput
      ensures Valid()
      ensures ValidateSend(old(recipientInput), old(amountInput)).None? ==>
        balance == old(balance) && transactions == old(transactions) && toast == InvalidSendMessage &&
        showSuccess == old(showSuccess) && amountInput == old(amountInput) && recipientInput == old(recipientInput)
      ensures ValidateSend(old(recipientInput), old(amountInput)).Some? ==>
        var p := ValidateSend(old(recipientInput), old(amountInput)).value;
        balance == NonNegative(old(balance) - p.amount) &&
        transactions == [Transaction(|old(transactions)| + 1, p.to, p.amount, "just now", "send")] + old(transactions) &&
        showSuccess && toast == SentMessage && amountInput == None && recipientInput == ""
    {
      var request := ValidateSend(recipientInput, amountInput);
      if request.None? {
        toast := InvalidSendMessage;
        return;
      }
      var p := request.value;
      var t := Transaction(|transactions| + 1, p.to, p.amount, "just now", "send");
      PrependKeepsNumbering(transactions, t);
      balance := NonNegative(balance - p.amount);
      transactions := [t] + transactions;
      showSuccess := true;
      toast := SentMessage;
      amountInput := None;
      recipientInput := "";
    }

    /** The heart on a directory card: adds an absent id at the end, removes a present one. */
    method ToggleFavorite(id: int)
      requires Valid()
      modifies this`favorites
      ensures Valid()
      ensures favorites == Toggle(old(favorites), id)
    {
      ToggleNoDuplicates(favorites, id);
      favorites := if id in favorites then Without(favorites, id) else favorites + [id];
    }

    /** The heart in the favourites section: only ever removes. */
    method RemoveFavorite(id: int)
      requires Valid()
      modifies this`favorites
      ensures Valid()
      ensures favorites == Without(old(favorites), id)
    {
      WithoutNoDuplicates(favorites, id);
      favorites := Without(favorites, id);
    }

    /** Clicking a suggestion fills the recipient input and closes the list. */
    method PickSuggestion(name: string)
      modifies this`recipientInput, this`searchQuery
      ensures recipientInput == name && searchQuery == ""
    {
      recipientInput := name;
      searchQuery := "";
    }
  }
}
