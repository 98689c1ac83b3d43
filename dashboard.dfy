/**
 * The seller dashboard (components/Dashboard.tsx): the listing table with its delete action,
 * the organization creation form, and the two totals shown above the table.
 * Each handler that awaits a database call is split at its `await`: `BeginX` runs it up to the
 * call and returns the request it sends, and `FinishX` runs the continuation with the call's
 * settled result. The ghost multisets of the class record the calls not yet settled.
 */
module Dashboard {
  import opened Wrappers
  import opened Strings
  import opened Types

  // ---------------------------------------------------------------------------
  // List operations

  /** `products.filter(p => p.id !== id)`. */
  function RemoveById(products: seq<ProductListing>, id: string): (r: seq<ProductListing>)
    ensures |r| <= |products|
    ensures forall p :: p in r <==> p in products && p.id != id
  {
    if products == [] then []
    else (if products[0].id != id then [products[0]] else []) + RemoveById(products[1..], id)
  }

  /** The filter keeps order: filtering a concatenation concatenates the filtered parts. */
  lemma {:induction false} RemoveByIdConcat(s: seq<ProductListing>, t: seq<ProductListing>, id: string)
    ensures RemoveById(s + t, id) == RemoveById(s, id) + RemoveById(t, id)
  {
    if s == [] {
      assert s + t == t;
    } else {
      assert (s + t)[1..] == s[1..] + t;
      RemoveByIdConcat(s[1..], t, id);
    }
  }

  /** A list without the id is left exactly as it is. */
  lemma {:induction false} RemoveByIdAbsent(s: seq<ProductListing>, id: string)
    requires forall i :: 0 <= i < |s| ==> s[i].id != id
    ensures RemoveById(s, id) == s
  {
    if s != [] {
      RemoveByIdAbsent(s[1..], id);
    }
  }

  /** Deleting the same id twice removes nothing more. */
  lemma RemoveByIdIdempotent(s: seq<ProductListing>, id: string)
    ensures RemoveById(RemoveById(s, id), id) == RemoveById(s, id)
  {
    var r := RemoveById(s, id);
    assert forall i :: 0 <= i < |r| ==> r[i] in r;
    RemoveByIdAbsent(r, id);
  }

  // ---------------------------------------------------------------------------
  // Totals

  /** `item.views || 0`. */
  function ViewsOrZero(p: ProductListing): int {
    p.views.GetOr(0)
  }

  /** `products.reduce((sum, item) => sum + (item.views || 0), 0)`; never negative when no count is. */
  function TotalViews(products: seq<ProductListing>): (r: int)
    ensures (forall i :: 0 <= i < |products| ==> ViewsOrZero(products[i]) >= 0) ==> r >= 0
  {
    if products == [] then 0
    else TotalViews(products[..|products| - 1]) + ViewsOrZero(products[|products| - 1])
  }

  /** `products.reduce((sum, item) => sum + Number(item.price), 0)`; never negative when no price is. */
  function TotalValue(products: seq<ProductListing>): (r: int)
    ensures (forall i :: 0 <= i < |products| ==> products[i].price >= 0) ==> r >= 0
  {
    if products == [] then 0
    else TotalValue(products[..|products| - 1]) + products[|products| - 1].price
  }

  /** The view total of two lists side by side is the sum of their totals. */
  lemma {:induction false} TotalViewsConcat(s: seq<ProductListing>, t: seq<ProductListing>)
    ensures TotalViews(s + t) == TotalViews(s) + TotalViews(t)
    decreases |t|
  {
    if t == [] {
      assert s + t == s;
    } else {
      assert (s + t)[..|s + t| - 1] == s + t[..|t| - 1];
      TotalViewsConcat(s, t[..|t| - 1]);
    }
  }

  /** The value total of two lists side by side is the sum of their totals. */
  lemma {:induction false} TotalValueConcat(s: seq<ProductListing>, t: seq<ProductListing>)
    ensures TotalValue(s + t) == TotalValue(s) + TotalValue(t)
    decreases |t|
  {
    if t == [] {
      assert s + t == s;
    } else {
      assert (s + t)[..|s + t| - 1] == s + t[..|t| - 1];
      TotalValueConcat(s, t[..|t| - 1]);
    }
  }

  /** With no negative price, deleting listings never raises the value total. */
  lemma {:induction false} TotalValueAfterDelete(s: seq<ProductListing>, id: string)
    requires forall i :: 0 <= i < |s| ==> s[i].price >= 0
    ensures TotalValue(RemoveById(s, id)) <= TotalValue(s)
  {
    if s != [] {
      var head := if s[0].id != id then [s[0]] else [];
      assert s == [s[0]] + s[1..];
      TotalValueConcat([s[0]], s[1..]);
      TotalValueConcat(head, RemoveById(s[1..], id));
      assert TotalValue([s[0]]) == s[0].price by { assert [s[0]][..0] == []; }
      assert head == [] ==> TotalValue(head) == 0;
      assert head != [] ==> TotalValue(head) == s[0].price by { assert [s[0]][..0] == []; }
      TotalValueAfterDelete(s[1..], id);
    }
  }

  // ---------------------------------------------------------------------------
  // The dashboard

  datatype DashboardView = DashboardView(
    products: seq<ProductListing>,
    orgs: seq<Organization>,
    loading: bool,
    deletingId: Option<string>,
    newOrgName: string,
    showOrgModal: bool)

  class Dashboard {
    const user: User
    var products: seq<ProductListing>
    var orgs: seq<Organization>
    var loading: bool
    var deletingId: Option<string>
    var newOrgName: string
    var showOrgModal: bool

    /** The ids of the deletions sent and not yet answered. */
    ghost var deletesInFlight: multiset<string>
    /** The names of the organizations requested and not yet answered. */
    ghost var createsInFlight: multiset<string>

    function View(): DashboardView
      reads this
    {
      DashboardView(products, orgs, loading, deletingId, newOrgName, showOrgModal)
    }

    /** A dashboard before its data has loaded. */
    constructor (user: User)
      ensures this.user == user && View() == DashboardView([], [], true, None, "", false)
      ensures deletesInFlight == multiset{} && createsInFlight == multiset{}
    {
      this.user := user;
      products := [];
      orgs := [];
      loading := true;
      deletingId := None;
      newOrgName := "";
      showOrgModal := false;
      deletesInFlight := multiset{};
      createsInFlight := multiset{};
    }

    /** `loadData` once both queries have answered. */
    method LoadData(items: seq<ProductListing>, organizations: seq<Organization>)
      modifies this
      ensures View() == old(View()).(products := items, orgs := organizations, loading := false)
      ensures deletesInFlight == old(deletesInFlight) && createsInFlight == old(createsInFlight)
    {
      products := items;
      orgs := organizations;
      loading := false;
    }

    /**
     * `handleDelete(id)` up to `deleteProduct`, given the answer to the confirmation dialog. A
     * declined dialog sends nothing and changes nothing; otherwise the row is marked as being
     * deleted and the id is sent.
     */
    method BeginDelete(id: string, confirmed: bool) returns (requested: Option<string>)
      modifies this
      ensures !confirmed ==> requested.None? && View() == old(View()) && deletesInFlight == old(deletesInFlight)
      ensures confirmed ==>
        requested == Some(id) && View() == old(View()).(deletingId := Some(id))
        && deletesInFlight == old(deletesInFlight) + multiset{id}
      ensures createsInFlight == old(createsInFlight)
    {
      if !confirmed {
        return None;
      }
      deletingId := Some(id);
      deletesInFlight := deletesInFlight + multiset{id};
      return Some(id);
    }

    /**
     * The rest of `handleDelete(id)`, given the `error` field of what `deleteProduct` returned
     * (absent on success, otherwise the database's message). `!error` decides: the listings with
     * that id go when there is no error text, an empty message included, and all stay otherwise;
     * either way no row is marked as being deleted.
     */
    method FinishDelete(id: string, error: Option<string>)
      requires id in deletesInFlight
      modifies this
      ensures View() == old(View()).(products := if !Present(error) then RemoveById(old(products), id) else old(products),
                                     deletingId := None)
      ensures deletesInFlight == old(deletesInFlight) - multiset{id} && createsInFlight == old(createsInFlight)
    {
      if !Present(error) {
        products := RemoveById(products, id);
      }
      deletingId := None;
      deletesInFlight := deletesInFlight - multiset{id};
    }

    /** The organization name input. */
    method SetNewOrgName(name: string)
      modifies this
      ensures View() == old(View()).(newOrgName := name)
      ensures deletesInFlight == old(deletesInFlight) && createsInFlight == old(createsInFlight)
    {
      newOrgName := name;
    }

    /** The "+ New Organization" and "Cancel" buttons. */
    method SetOrgModal(open: bool)
      modifies this
      ensures View() == old(View()).(showOrgModal := open)
      ensures deletesInFlight == old(deletesInFlight) && createsInFlight == old(createsInFlight)
    {
      showOrgModal := open;
    }

    /**
     * `handleCreateOrg` up to `createOrganization`. A blank name sends nothing; otherwise the
     * name, untrimmed, is sent. Nothing visible changes either way.
     */
    method BeginCreateOrg() returns (requested: Option<string>)
      modifies this
      ensures Blank(old(newOrgName)) ==> requested.None? && createsInFlight == old(createsInFlight)
      ensures !Blank(old(newOrgName)) ==>
        requested == Some(old(newOrgName)) && createsInFlight == old(createsInFlight) + multiset{old(newOrgName)}
      ensures View() == old(View()) && deletesInFlight == old(deletesInFlight)
    {
      if Blank(newOrgName) {
        return None;
      }
      createsInFlight := createsInFlight + multiset{newOrgName};
      return Some(newOrgName);
    }

    /**
     * The rest of `handleCreateOrg`, given what `createOrganization` returned for `name`: a
     * created organization is appended, the name input cleared and the form closed; a `null`
     * answer changes nothing.
     */
    method FinishCreateOrg(name: string, created: Option<Organization>)
      requires name in createsInFlight
      modifies this
      ensures View() == if created.Some?
                        then old(View()).(orgs := old(orgs) + [created.value], newOrgName := "", showOrgModal := false)
                        else old(View())
      ensures createsInFlight == old(createsInFlight) - multiset{name} && deletesInFlight == old(deletesInFlight)
    {
      if created.Some? {
        orgs := orgs + [created.value];
        newOrgName := "";
        showOrgModal := false;
      }
      createsInFlight := createsInFlight - multiset{name};
    }
  }
}
