/**
 * The idea submission form (src/components/IdeaSubmissionForm.tsx): find the
 * submitter by email or create them, insert the idea, then bump the
 * category's counter on a best-effort basis. The hosted tables are an
 * in-memory store; whether each of its calls fails is a parameter.
 */
module IdeaSubmission {
  import opened Text
  import Categories

  datatype User = User(id: nat, name: string, email: string)

  datatype Idea = Idea(userId: nat, title: string, description: string, category: string)

  datatype FormData = FormData(name: string, email: string, title: string, description: string, category: string)

  /** Which store calls fail during one submission; the reasons are not modelled. */
  datatype Faults = Faults(lookupFails: bool, createUserFails: bool, ideaInsertFails: bool, counterFails: bool)

  datatype Outcome = Submitted | SubmissionFailed

  /** Ids of the users whose email is exactly `email`, in table order. */
  function UsersWithEmail(users: seq<User>, email: string): (ids: seq<nat>)
    ensures |ids| <= |users|
    ensures forall id :: id in ids <==> exists k :: 0 <= k < |users| && users[k].email == email && users[k].id == id
  {
    if users == [] then []
    else
      var rest := UsersWithEmail(users[1..], email);
      assert forall k :: 1 <= k < |users| ==> users[k] == users[1..][k - 1];
      if users[0].email == email then [users[0].id] + rest else rest
  }

  /**
   * `.eq("email", email).single()`: a row only when exactly one user has this
   * email; none or several make `single()` report an error, which the form
   * never reads, so both count as "no user".
   */
  function LookupByEmail(users: seq<User>, email: string): (r: Option<nat>)
    ensures r.Some? ==> exists k :: 0 <= k < |users| && users[k].email == email && users[k].id == r.value
    ensures (forall k :: 0 <= k < |users| ==> users[k].email != email) ==> r.None?
    ensures r.Some? <==> |UsersWithEmail(users, email)| == 1
  {
    var ids := UsersWithEmail(users, email);
    if |ids| == 1 then
      assert ids[0] in ids;
      Some(ids[0])
    else
      assert ids != [] ==> ids[0] in ids;
      None
  }

  /** When row `k` is the only one with this email, its id is the only one listed. */
  lemma {:induction false} OnlyMatchListed(users: seq<User>, email: string, k: nat)
    requires k < |users| && users[k].email == email
    requires forall j :: 0 <= j < |users| && j != k ==> users[j].email != email
    ensures UsersWithEmail(users, email) == [users[k].id]
  {
    if k == 0 {
      NoMatchListed(users[1..], email);
    } else {
      forall j | 0 <= j < |users| - 1 && j != k - 1
        ensures users[1..][j].email != email
      {
        assert users[1..][j] == users[j + 1];
      }
      OnlyMatchListed(users[1..], email, k - 1);
    }
  }

  /** With no row carrying this email, no id is listed. */
  lemma {:induction false} NoMatchListed(users: seq<User>, email: string)
    requires forall j :: 0 <= j < |users| ==> users[j].email != email
    ensures UsersWithEmail(users, email) == []
  {
    if users != [] {
      NoMatchListed(users[1..], email);
    }
  }

  /** Exactly one user with this email: the lookup finds that user's id, which the form then reuses. */
  lemma UniqueMatchFound(users: seq<User>, email: string, k: nat)
    requires k < |users| && users[k].email == email
    requires forall j :: 0 <= j < |users| && j != k ==> users[j].email != email
    ensures LookupByEmail(users, email) == Some(users[k].id)
  {
    OnlyMatchListed(users, email, k);
  }

  lemma {:induction false} TwoMatchesCounted(users: seq<User>, email: string, i: nat, j: nat)
    requires i < j < |users| && users[i].email == email && users[j].email == email
    ensures |UsersWithEmail(users, email)| >= 2
  {
    if i == 0 {
      assert users[1..][j - 1] == users[j];
      assert users[j].id in UsersWithEmail(users[1..], email);
    } else {
      TwoMatchesCounted(users[1..], email, i - 1, j - 1);
    }
  }

  /** Two rows with the same email make the lookup come back empty, so the form creates yet another user. */
  lemma DuplicateEmailLooksMissing(users: seq<User>, email: string, i: nat, j: nat)
    requires i < j < |users| && users[i].email == email && users[j].email == email
    ensures LookupByEmail(users, email).None?
  {
    TwoMatchesCounted(users, email, i, j);
  }

  /** The idea table's category counter after `increment_idea_count` (a row is assumed to start at 0). */
  function Incremented(counters: map<string, nat>, category: string): (r: map<string, nat>)
    ensures category in r && r[category] == (if category in counters then counters[category] else 0) + 1
    ensures forall c :: c != category ==> (c in r <==> c in counters) && (c in counters ==> r[c] == counters[c])
  {
    counters[category := (if category in counters then counters[category] else 0) + 1]
  }

  /** The users, ideas and per-category counters behind the form. */
  class Store {
    var users: seq<User>
    var ideas: seq<Idea>
    var counters: map<string, nat>

    /** A user's id is its position, so a new row's id is fresh. */
    ghost predicate Valid()
      reads this
    {
      forall k :: 0 <= k < |users| ==> users[k].id == k
    }

    constructor ()
      ensures Valid() && users == [] && ideas == [] && counters == map[]
    {
      users, ideas, counters := [], [], map[];
    }

    method InsertUser(name: string, email: string, fails: bool) returns (id: Option<nat>)
      requires Valid()
      modifies this
      ensures Valid() && ideas == old(ideas) && counters == old(counters)
      ensures fails ==> id.None? && users == old(users)
      ensures !fails ==> id == Some(|old(users)|) && users == old(users) + [User(|old(users)|, name, email)]
    {
      if fails {
        return None;
      }
      id := Some(|users|);
      users := users + [User(|users|, name, email)];
    }

    method InsertIdea(idea: Idea, fails: bool) returns (ok: bool)
      modifies this
      ensures ok <==> !fails
      ensures users == old(users) && counters == old(counters)
      ensures ideas == if ok then old(ideas) + [idea] else old(ideas)
    {
      ok := !fails;
      if ok {
        ideas := ideas + [idea];
      }
    }

    method IncrementIdeaCount(category: string, fails: bool) returns (ok: bool)
      modifies this
      ensures ok <==> !fails
      ensures users == old(users) && ideas == old(ideas)
      ensures counters == if ok then Incremented(old(counters), category) else old(counters)
    {
      ok := !fails;
      if ok {
        counters := Incremented(counters, category);
      }
    }
  }

  /** The brainstorm button: absent without a category, else the category and its label, "Unknown" if unlisted. */
  function BrainstormRequest(category: string): (r: Option<(string, string)>)
    ensures r.Some? <==> category != ""
    ensures r.Some? ==> r.value.0 == category
    ensures r.Some? ==> (r.value.1 == "Unknown" <==> !Categories.IsKnown(category))
    ensures r.Some? && Categories.IsKnown(category) ==> r.value.1 == Categories.Labels[category]
  {
    if category == "" then None else Some((category, Categories.LabelOr(category, "Unknown")))
  }

  /** A character allowed before the `@` of a valid e-mail address (HTML Living Standard, section 4.10.5.1.5). */
  predicate LocalPartChar(c: char)
  {
    'a' <= c <= 'z' || 'A' <= c <= 'Z' || '0' <= c <= '9' || c in ".!#$%&'*+/=?^_`{|}~-"
  }

  /** A domain label: 1 to 63 letters, digits or hyphens, neither starting nor ending with a hyphen. */
  predicate ValidLabel(part: string)
  {
    && 1 <= |part| <= 63
    && (forall k :: 0 <= k < |part| ==> 'a' <= part[k] <= 'z' || 'A' <= part[k] <= 'Z' || '0' <= part[k] <= '9' || part[k] == '-')
    && part[0] != '-' && part[|part| - 1] != '-'
  }

  /** A valid e-mail address: a non-empty local part, `@`, then dot-separated valid labels. */
  predicate ValidEmail(s: string)
  {
    match IndexOf(s, "@")
    case None => false
    case Some(i) =>
      && i > 0
      && (forall k :: 0 <= k < i ==> LocalPartChar(s[k]))
      && var labels := Split(s[i + 1..], ".");
         forall k :: 0 <= k < |labels| ==> ValidLabel(labels[k])
  }

  /** The browser refuses an address without a local part or without a domain. */
  lemma EmailNeedsBothParts(local: string, domain: string)
    requires '@' !in local
    ensures ValidEmail(local + "@" + domain) ==> local != "" && domain != ""
  {
    var s := local + "@" + domain;
    assert OccursAt(s, "@", |local|) by {
      assert s[|local|..|local| + 1] == "@";
    }
    forall k | 0 <= k < |local| ensures !OccursAt(s, "@", k) {
      assert s[k] == local[k];
    }
    assert IndexOf(s, "@") == Some(|local|);
    assert s[|local| + 1..] == domain;
    if domain == "" {
      assert !IsInfix(".", domain);
      assert Split(s[|local| + 1..], ".")[0] == "";
      assert !ValidLabel("");
    }
  }

  class SubmissionForm {
    var formData: FormData
    var isSubmitting: bool
    /** `onClose()` has been called. */
    var closed: bool

    constructor (formData: FormData)
      ensures this.formData == formData && !isSubmitting && !closed
    {
      this.formData := formData;
      isSubmitting := false;
      closed := false;
    }

    /** The submit button's `disabled` expression. */
    predicate SubmitDisabled()
      reads this
    {
      isSubmitting || formData.category == ""
    }

    /**
     * What one submission does, given which store calls fail. The user is the
     * one row with this email, or a new row; a failed lookup counts as "no
     * user". A failed user insert stops before the idea; a failed idea insert
     * stops before the counter; a failed counter update is only warned about
     * and the submission still succeeds and closes the form. The form's
     * fields are kept.
     */
    twostate predicate SubmitEffect(store: Store, faults: Faults, new outcome: Outcome)
      reads this, store
    {
      && formData == old(formData)
      && closed == (old(closed) || outcome == Submitted)
      && var existing := if faults.lookupFails then None else LookupByEmail(old(store.users), formData.email);
        && (existing.Some? ==> store.users == old(store.users))
        && (existing.None? && !faults.createUserFails ==>
              store.users == old(store.users) + [User(|old(store.users)|, formData.name, formData.email)])
        && (existing.None? && faults.createUserFails ==>
              store.users == old(store.users) && store.ideas == old(store.ideas)
              && store.counters == old(store.counters) && outcome == SubmissionFailed)
        && (existing.Some? || !faults.createUserFails ==>
              var userId := if existing.Some? then existing.value else |old(store.users)|;
              var idea := Idea(userId, formData.title, formData.description, formData.category);
              && (faults.ideaInsertFails ==>
                    store.ideas == old(store.ideas) && store.counters == old(store.counters) && outcome == SubmissionFailed)
              && (!faults.ideaInsertFails ==>
                    store.ideas == old(store.ideas) + [idea] && outcome == Submitted
                    && store.counters == if faults.counterFails then old(store.counters)
                                         else Incremented(old(store.counters), formData.category)))
    }

    /** `handleSubmit`: the submission's effect, with `isSubmitting` false afterwards on every path. */
    method HandleSubmit(store: Store, faults: Faults) returns (outcome: Outcome)
      requires store.Valid()
      modifies this, store
      ensures store.Valid() && !isSubmitting
      ensures SubmitEffect(store, faults, outcome)
    {
      isSubmitting := true;
      var existing := if faults.lookupFails then None else LookupByEmail(store.users, formData.email);
      var userId: nat;
      if existing.Some? {
        userId := existing.value;
      } else {
        var created := store.InsertUser(formData.name, formData.email, faults.createUserFails);
        if created.None? {
          isSubmitting := false;
          return SubmissionFailed;
        }
        userId := created.value;
      }
      var ideaOk := store.InsertIdea(Idea(userId, formData.title, formData.description, formData.category),
                                     faults.ideaInsertFails);
      if !ideaOk {
        isSubmitting := false;
        return SubmissionFailed;
      }
      var _ := store.IncrementIdeaCount(formData.category, faults.counterFails);
      closed := true;
      outcome := Submitted;
      isSubmitting := false;
    }

    /**
     * The browser's constraint validation of the form: the four `required`
     * fields are not empty and the `type="email"` field holds a valid e-mail
     * address. The category tabs carry no constraint.
     */
    predicate FieldsValid()
      reads this
    {
      formData.name != "" && formData.title != "" && formData.description != "" && ValidEmail(formData.email)
    }

    /**
     * A click on the submit button: a disabled button does not fire, and an
     * enabled one submits the form only when the browser's validation passes;
     * otherwise nothing changes. A submission has the effect of `handleSubmit`.
     */
    method ClickSubmit(store: Store, faults: Faults) returns (outcome: Option<Outcome>)
      requires store.Valid()
      modifies this, store
      ensures store.Valid()
      ensures outcome.Some? <==> !old(SubmitDisabled()) && old(FieldsValid())
      ensures outcome.Some? ==> SubmitEffect(store, faults, outcome.value) && !isSubmitting
      ensures outcome.None? ==> unchanged(this) && unchanged(store)
    {
      if isSubmitting || formData.category == "" || !FieldsValid() {
        return None;
      }
      var o := HandleSubmit(store, faults);
      outcome := Some(o);
    }
  }

  /**
   * Submitting twice with a new email creates one user and two ideas that
   * point at it: the second submission finds the row the first created.
   */
  method SecondSubmissionReusesUser(data: FormData) returns (userCount: nat, first: Idea, second: Idea)
    requires data.category != ""
    ensures userCount == 1 && first == second && first.userId == 0
  {
    var store := new Store();
    var noFaults := Faults(false, false, false, false);
    var form := new SubmissionForm(data);
    var _ := form.HandleSubmit(store, noFaults);
    assert store.users == [User(0, data.name, data.email)];
    assert UsersWithEmail(store.users, data.email) == [0];
    var _ := form.HandleSubmit(store, noFaults);
    userCount := |store.users|;
    first, second := store.ideas[0], store.ideas[1];
  }
}
