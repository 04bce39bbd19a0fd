/** The dashboard's local state. The balance it shows is a projection: it starts from the
    logged-in user's balance and is only ever moved by the replies to the user's own ad
    views (+reward) and application submissions (-50). It is never re-read from the server. */
module Dashboard {
  import opened Common
  import opened Models
  import ApplicationForm

  /** `useState(user?.balance || 0)`. */
  function InitialBalance(user: Option<User>): (b: int)
    ensures user.Some? ==> b == user.value.balance
    ensures user.None? ==> b == 0
  {
    if user.Some? && user.value.balance != 0 then user.value.balance else 0
  }

  /** The projected balance after the reply to one ad view. */
  function AfterAdView(balance: int, reply: Result<AdView>): (b: int)
    ensures reply.Ok? ==> b == balance + reply.value.rewardEarned
    ensures reply.Err? ==> b == balance
  {
    if reply.Ok? then balance + reply.value.rewardEarned else balance
  }

  /** The projected balance after the reply to one submission: a fixed 50, whatever cost
      the returned application reports. */
  function AfterSubmit(balance: int, reply: Result<Application>): (b: int)
    ensures reply.Ok? ==> b == balance - ApplicationCost
    ensures reply.Err? ==> b == balance
  {
    if reply.Ok? then balance - ApplicationCost else balance
  }

  /** The replies that move the projection, in the order they arrive. */
  datatype Event = AdViewed(view: Result<AdView>) | Submitted(application: Result<Application>)

  function Project(balance: int, events: seq<Event>): int {
    if events == [] then balance
    else
      var b := Project(balance, events[..|events| - 1]);
      match events[|events| - 1]
      case AdViewed(v) => AfterAdView(b, v)
      case Submitted(a) => AfterSubmit(b, a)
  }

  /** The reward the server reported for a successful view. */
  function Credit(e: Event): int {
    if e.AdViewed? && e.view.Ok? then e.view.value.rewardEarned else 0
  }

  /** The cost the server reported for a successful submission. */
  function ReportedCost(e: Event): int {
    if e.Submitted? && e.application.Ok? then e.application.value.cost else 0
  }

  function Credits(events: seq<Event>): int {
    if events == [] then 0 else Credits(events[..|events| - 1]) + Credit(events[|events| - 1])
  }

  /** The number of successful submissions. */
  function Submissions(events: seq<Event>): nat {
    if events == [] then 0
    else Submissions(events[..|events| - 1]) + (if events[|events| - 1].Submitted? && events[|events| - 1].application.Ok? then 1 else 0)
  }

  function ReportedCosts(events: seq<Event>): int {
    if events == [] then 0 else ReportedCosts(events[..|events| - 1]) + ReportedCost(events[|events| - 1])
  }

  predicate ChargedAtListPrice(events: seq<Event>) {
    forall i :: 0 <= i < |events| ==>
      events[i].Submitted? && events[i].application.Ok? ==> events[i].application.value.cost == ApplicationCost
  }

  /** The projection is the starting balance, plus every reported reward, minus 50 per
      successful submission; failed replies count for nothing. */
  lemma {:induction false} ProjectionTotals(balance: int, events: seq<Event>)
    ensures Project(balance, events) == balance + Credits(events) - ApplicationCost * Submissions(events)
  {
    if events != [] {
      ProjectionTotals(balance, events[..|events| - 1]);
    }
  }

  /** When every successful submission was charged the list price (as the backend's
      `create_application` does), the projection moves exactly as the server ledger does:
      by the reported rewards minus the reported costs. */
  lemma {:induction false} ProjectionMatchesLedger(balance: int, events: seq<Event>)
    requires ChargedAtListPrice(events)
    ensures Project(balance, events) == balance + Credits(events) - ReportedCosts(events)
  {
    if events != [] {
      var init := events[..|events| - 1];
      assert ChargedAtListPrice(init) by {
        forall i | 0 <= i < |init| ensures init[i] == events[i] { }
      }
      ProjectionMatchesLedger(balance, init);
    }
  }

  class DashboardState {
    var balance: int
    var ads: seq<Ad>
    var applications: seq<Application>
    var loading: bool

    constructor (user: Option<User>)
      ensures balance == InitialBalance(user)
      ensures ads == [] && applications == [] && loading
    {
      balance := InitialBalance(user);
      ads, applications, loading := [], [], true;
    }

    /** `loadData`, given the joint reply to GET /ads and GET /applications: both lists
        are replaced, or neither. The balance is not touched. */
    method LoadData(reply: Result<(seq<Ad>, seq<Application>)>)
      modifies this
      ensures balance == old(balance) && !loading
      ensures reply.Ok? ==> ads == reply.value.0 && applications == reply.value.1
      ensures reply.Err? ==> ads == old(ads) && applications == old(applications)
    {
      if reply.Ok? {
        ads := reply.value.0;
        applications := reply.value.1;
      }
      loading := false;
    }

    /** `handleAdView`, given the reply to POST /ads/view and the reply to the reload a
        successful view triggers. */
    method HandleAdView(reply: Result<AdView>, reload: Result<(seq<Ad>, seq<Application>)>)
      modifies this
      ensures balance == AfterAdView(old(balance), reply)
      ensures reply.Err? ==> unchanged(this)
      ensures reply.Ok? ==> !loading
      ensures reply.Ok? && reload.Ok? ==> ads == reload.value.0 && applications == reload.value.1
      ensures reply.Ok? && reload.Err? ==> ads == old(ads) && applications == old(applications)
    {
      if reply.Ok? {
        balance := balance + reply.value.rewardEarned;
        LoadData(reload);
      }
    }

    /** `handleApplicationSubmit`, given the reply to POST /applications and the reply to
        the reload a successful submission triggers. Errors are caught here, so the
        promise it returns always resolves. */
    method HandleApplicationSubmit(reply: Result<Application>, reload: Result<(seq<Ad>, seq<Application>)>)
      returns (o: Outcome)
      modifies this
      ensures o == Done
      ensures balance == AfterSubmit(old(balance), reply)
      ensures reply.Err? ==> unchanged(this)
      ensures reply.Ok? ==> !loading
      ensures reply.Ok? && reload.Ok? ==> ads == reload.value.0 && applications == reload.value.1
      ensures reply.Ok? && reload.Err? ==> ads == old(ads) && applications == old(applications)
    {
      if reply.Ok? {
        balance := balance - ApplicationCost;
        LoadData(reload);
      }
      o := Done;
    }

    /** `<ApplicationForm onSubmit={handleApplicationSubmit} />`: a valid form is submitted
        through this dashboard. Because the handler catches the server's refusal, the
        form is reset and closed even when no application was created and no coin spent. */
    method SubmitApplicationForm(form: ApplicationForm.ApplicationFormState,
                                 reply: Result<Application>, reload: Result<(seq<Ad>, seq<Application>)>)
      returns (handled: bool)
      modifies this, form
      ensures handled <==> old(ApplicationForm.FieldErrors(form.values)) == []
      ensures !handled ==> unchanged(this) && unchanged(form)
      ensures handled ==>
        && balance == AfterSubmit(old(balance), reply)
        && form.values == ApplicationForm.EmptyForm && !form.isOpen && !form.isSubmitting
      ensures handled && reply.Err? ==> balance == old(balance) && form.values == ApplicationForm.EmptyForm
      ensures handled && reply.Err? ==> unchanged(this)
      ensures handled && reply.Ok? ==> !loading
      ensures handled && reply.Ok? && reload.Ok? ==> ads == reload.value.0 && applications == reload.value.1
      ensures handled && reply.Ok? && reload.Err? ==> ads == old(ads) && applications == old(applications)
      ensures handled ==> unchanged(form`isUploading, form`uploadedPhoto, form`uploadedVideo)
    {
      if ApplicationForm.FieldErrors(form.values) != [] {
        return false;
      }
      var o := HandleApplicationSubmit(reply, reload);
      var r := form.HandleFormSubmit(o);
      handled := true;
    }
  }
}
