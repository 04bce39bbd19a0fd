/** The admin panel: the list of all applications, a status filter, and approve/reject
    buttons on pending applications. */
module AdminPage {
  import opened Common
  import opened Models
  import opened StatusBadge

  datatype Filter = All | Pending | Approved | Rejected

  function FilterKey(f: Filter): string {
    match f
    case All => "all"
    case Pending => StatusPending
    case Approved => StatusApproved
    case Rejected => StatusRejected
  }

  predicate Passes(a: Application, f: Filter) {
    f == All || a.status == FilterKey(f)
  }

  /** `filteredApplications`. */
  function FilterApplications(apps: seq<Application>, f: Filter): (r: seq<Application>)
    ensures f == All ==> r == apps
    ensures |r| <= |apps|
  {
    if apps == [] then []
    else (if Passes(apps[0], f) then [apps[0]] else []) + FilterApplications(apps[1..], f)
  }

  /** The filter shows exactly the applications whose status matches it. */
  lemma {:induction false} FilterMembers(apps: seq<Application>, f: Filter)
    ensures forall a :: a in FilterApplications(apps, f) <==> a in apps && Passes(a, f)
  {
    if apps != [] {
      FilterMembers(apps[1..], f);
      assert apps == [apps[0]] + apps[1..];
    }
  }

  /** The filter keeps the original order: filtering a concatenation concatenates the
      filtered parts. */
  lemma {:induction false} FilterKeepsOrder(a: seq<Application>, b: seq<Application>, f: Filter)
    ensures FilterApplications(a + b, f) == FilterApplications(a, f) + FilterApplications(b, f)
  {
    if a == [] {
      assert a + b == b;
    } else {
      var head := if Passes(a[0], f) then [a[0]] else [];
      assert (a + b)[0] == a[0] && (a + b)[1..] == a[1..] + b;
      assert FilterApplications(a + b, f) == head + FilterApplications(a[1..] + b, f);
      FilterKeepsOrder(a[1..], b, f);
      assert FilterApplications(a, f) == head + FilterApplications(a[1..], f);
      assert head + (FilterApplications(a[1..], f) + FilterApplications(b, f))
          == (head + FilterApplications(a[1..], f)) + FilterApplications(b, f);
    }
  }

  /** Selecting the same filter again shows the same list. */
  lemma {:induction false} FilterIdempotent(apps: seq<Application>, f: Filter)
    ensures FilterApplications(FilterApplications(apps, f), f) == FilterApplications(apps, f)
  {
    if apps != [] {
      FilterIdempotent(apps[1..], f);
      if Passes(apps[0], f) {
        var r := FilterApplications(apps, f);
        assert r == [apps[0]] + FilterApplications(apps[1..], f);
        assert r[0] == apps[0] && r[1..] == FilterApplications(apps[1..], f);
        assert FilterApplications(r, f) == [r[0]] + FilterApplications(r[1..], f);
      } else {
        assert FilterApplications(apps, f) == [] + FilterApplications(apps[1..], f);
        assert [] + FilterApplications(apps[1..], f) == FilterApplications(apps[1..], f);
      }
    }
  }

  datatype StatusAction = Approve | Reject

  /** The status each button sends. */
  function TargetStatus(act: StatusAction): (s: string)
    ensures s == StatusApproved || s == StatusRejected
    ensures (act == Approve) <==> s == StatusApproved
  {
    match act
    case Approve => StatusApproved
    case Reject => StatusRejected
  }

  /** `application.status === 'pending' && (...)`: the buttons a card offers. */
  function ActionsFor(a: Application): (acts: seq<StatusAction>)
    ensures acts != [] <==> a.status == StatusPending
    ensures acts != [] ==> acts == [Approve, Reject]
  {
    if a.status == StatusPending then [Approve, Reject] else []
  }

  /** `application.cost || 50`. */
  function DisplayedCost(cost: int): (c: int)
    ensures cost != 0 ==> c == cost
    ensures cost == 0 ==> c == ApplicationCost
    ensures c != 0
  {
    if cost != 0 then cost else ApplicationCost
  }

  datatype AdminCard = AdminCard(id: int, badge: Badge, cost: int, actions: seq<StatusAction>)

  function AdminCardFor(a: Application): (c: AdminCard)
    ensures c.id == a.id && c.badge == BadgeFor(a.status)
    ensures c.cost == DisplayedCost(a.cost) && c.actions == ActionsFor(a)
  {
    AdminCard(a.id, BadgeFor(a.status), DisplayedCost(a.cost), ActionsFor(a))
  }

  function CardsFor(apps: seq<Application>): (cs: seq<AdminCard>)
    ensures |cs| == |apps|
    ensures forall i :: 0 <= i < |apps| ==> cs[i] == AdminCardFor(apps[i])
  {
    if apps == [] then [] else [AdminCardFor(apps[0])] + CardsFor(apps[1..])
  }

  /** What the list part of the panel shows: the heading count, the empty state, the cards. */
  datatype PanelView = PanelView(count: int, emptyState: bool, cards: seq<AdminCard>)

  function Render(apps: seq<Application>, f: Filter): (v: PanelView)
    ensures v.count == |FilterApplications(apps, f)| == |v.cards|
    ensures v.emptyState <==> v.count == 0
    ensures forall i :: 0 <= i < |v.cards| ==> v.cards[i] == AdminCardFor(FilterApplications(apps, f)[i])
  {
    var shown := FilterApplications(apps, f);
    PanelView(|shown|, |shown| == 0, CardsFor(shown))
  }

  /** Every button the panel shows sits on a pending application that passes the filter,
      and asks for "approved" or "rejected". */
  lemma {:induction false} ButtonsOnlyOnPending(apps: seq<Application>, f: Filter, i: nat, act: StatusAction)
    requires i < |Render(apps, f).cards| && act in Render(apps, f).cards[i].actions
    ensures var a := FilterApplications(apps, f)[i];
      a in apps && a.status == StatusPending && Passes(a, f)
    ensures TargetStatus(act) == StatusApproved || TargetStatus(act) == StatusRejected
  {
    var shown := FilterApplications(apps, f);
    FilterMembers(apps, f);
    assert shown[i] in shown;
  }

  /** PUT /admin/applications/{id} with body `{status}`. */
  datatype StatusPut = StatusPut(applicationId: int, status: string)

  class AdminPanel {
    var applications: seq<Application>
    var loading: bool
    var filter: Filter
    ghost var sent: seq<StatusPut>    // the status updates requested, in order

    constructor ()
      ensures applications == [] && loading && filter == All && sent == []
    {
      applications, loading, filter := [], true, All;
      sent := [];
    }

    /** `loadApplications`, given the reply to GET /admin/applications. */
    method LoadApplications(reply: Result<seq<Application>>)
      modifies this
      ensures !loading && filter == old(filter) && sent == old(sent)
      ensures applications == if reply.Ok? then reply.value else old(applications)
    {
      if reply.Ok? {
        applications := reply.value;
      }
      loading := false;
    }

    method SetFilter(f: Filter)
      modifies this
      ensures filter == f && unchanged(this`applications, this`loading, this`sent)
    {
      filter := f;
    }

    /** `updateApplicationStatus`, given the reply to the PUT and, when it succeeded, the
        reply to the reload it triggers. The PUT goes out either way; a failed update
        leaves the panel's state as it was. */
    method UpdateApplicationStatus(applicationId: int, status: string,
                                   reply: Result<Application>, reload: Result<seq<Application>>)
      modifies this
      ensures sent == old(sent) + [StatusPut(applicationId, status)]
      ensures reply.Err? ==> unchanged(this`applications, this`loading, this`filter)
      ensures reply.Ok? ==> !loading && filter == old(filter)
      ensures reply.Ok? ==> applications == if reload.Ok? then reload.value else old(applications)
    {
      sent := sent + [StatusPut(applicationId, status)];
      if reply.Ok? {
        LoadApplications(reload);
      }
    }

    /** A click on button `act` of the `i`-th shown card: the buttons exist only where
        `Render` puts them, and the click asks to set that card's application to the
        button's status. */
    method Click(i: nat, act: StatusAction, reply: Result<Application>, reload: Result<seq<Application>>)
      requires i < |Render(applications, filter).cards| && act in Render(applications, filter).cards[i].actions
      modifies this
      ensures old(FilterApplications(applications, filter)[i].status) == StatusPending
      ensures sent == old(sent) + [StatusPut(old(FilterApplications(applications, filter)[i].id), TargetStatus(act))]
      ensures act == Approve ==> sent[|sent| - 1].status == StatusApproved
      ensures act == Reject ==> sent[|sent| - 1].status == StatusRejected
      ensures reply.Err? ==> unchanged(this`applications, this`loading, this`filter)
      ensures reply.Ok? ==> !loading && filter == old(filter)
      ensures reply.Ok? ==> applications == if reload.Ok? then reload.value else old(applications)
    {
      ButtonsOnlyOnPending(applications, filter, i, act);
      var a := FilterApplications(applications, filter)[i];
      UpdateApplicationStatus(a.id, TargetStatus(act), reply, reload);
    }
  }
}
