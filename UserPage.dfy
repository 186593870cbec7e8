/**
 * The user list page: which page to ask the server for, the table caption,
 * when the Previous and Next links are disabled and where they lead, and the
 * ordered steps of deleting a user from the table.
 */
module UserPage {
  import opened Wrappers
  import opened Decimal

  // ---------------------------------------------------------------------------
  // Paging

  /**
   * `queryParamPage`: the `page` query parameter as `Number` reads it, `None`
   * standing for NaN (an absent parameter among others); NaN falls back to 1.
   */
  function QueryParamPage(parsed: Option<int>): (page: int)
    ensures parsed.None? ==> page == 1
    ensures parsed.Some? ==> page == parsed.value
  {
    match parsed
    case None => 1
    case Some(n) => n
  }

  /** The page sent to `user.list`: `queryParamPage < 1 ? 1 : queryParamPage`. */
  function RequestedPage(queryParamPage: int): (page: int)
    ensures page >= 1 && page >= queryParamPage
    ensures page == 1 || page == queryParamPage
  {
    if queryParamPage < 1 then 1 else queryParamPage
  }

  /** Whatever the query holds, the page sent is at least 1, and a page from 1 up is sent as it is. */
  lemma PageSentIsPositive(parsed: Option<int>)
    ensures RequestedPage(QueryParamPage(parsed)) >= 1
    ensures parsed.Some? && parsed.value >= 1 ==> RequestedPage(QueryParamPage(parsed)) == parsed.value
    ensures parsed.None? || parsed.value < 1 ==> RequestedPage(QueryParamPage(parsed)) == 1
  {
  }

  /** Previous is shown disabled when `page === 1 || page < 0 || page > totalPages`. */
  predicate PrevDisabled(page: int, totalPages: int) {
    page == 1 || page < 0 || page > totalPages
  }

  /** Next is shown disabled when `page === totalPages || page < 0 || page > totalPages`. */
  predicate NextDisabled(page: int, totalPages: int) {
    page == totalPages || page < 0 || page > totalPages
  }

  const PageQueryPrefix: string := "?page="

  /** The Previous link, `?page=${page - 1}`. */
  function PrevHref(page: int): string {
    PageQueryPrefix + IntToString(page - 1)
  }

  /** The Next link, `?page=${page + 1}`. */
  function NextHref(page: int): string {
    PageQueryPrefix + IntToString(page + 1)
  }

  /** The `page` value a link of this page carries. */
  function PageValue(href: string): string
    requires |href| >= |PageQueryPrefix|
  {
    href[|PageQueryPrefix|..]
  }

  /** On a page within range, Previous is enabled exactly above page 1 and Next exactly below the last page. */
  lemma LinksWithinRange(page: int, totalPages: int)
    requires 1 <= page <= totalPages
    ensures !PrevDisabled(page, totalPages) <==> page > 1
    ensures !NextDisabled(page, totalPages) <==> page < totalPages
  {
  }

  /** An enabled Next link always leads to a page within range. */
  lemma NextLeadsWithinRange(page: int, totalPages: int)
    requires !NextDisabled(page, totalPages)
    ensures 1 <= page + 1 <= totalPages
  {
  }

  /**
   * An enabled Previous link leads within range from every page but 0: the
   * guard tests `page < 0`, so page 0 keeps Previous enabled, pointing at -1.
   */
  lemma PrevLeadsWithinRange(page: int, totalPages: int)
    requires !PrevDisabled(page, totalPages)
    ensures page == 0 || 1 <= page - 1 <= totalPages
    ensures page == 0 ==> totalPages >= 0 && page - 1 == -1
  {
  }

  /**
   * Following a link and reading its `page` back gives the page it names:
   * `page - 1` for Previous and `page + 1` for Next; what is then requested is
   * that page clamped to at least 1.
   */
  lemma LinksRoundTrip(page: int)
    ensures IsDecimal(PageValue(PrevHref(page)))
    ensures QueryParamPage(Some(DecimalValue(PageValue(PrevHref(page))))) == page - 1
    ensures IsDecimal(PageValue(NextHref(page)))
    ensures QueryParamPage(Some(DecimalValue(PageValue(NextHref(page))))) == page + 1
  {
    assert PageValue(PrevHref(page)) == IntToString(page - 1);
    assert PageValue(NextHref(page)) == IntToString(page + 1);
    IntToStringRoundTrip(page - 1);
    IntToStringRoundTrip(page + 1);
  }

  // ---------------------------------------------------------------------------
  // Caption

  /** The three buckets the caption distinguishes. */
  datatype CaptionKind = NoUsers | OneUser | ManyUsers

  /** The buckets are exactly count 0, count 1, and every other count. */
  function Classify(totalCount: int): (k: CaptionKind)
    ensures k == NoUsers <==> totalCount == 0
    ensures k == OneUser <==> totalCount == 1
    ensures k == ManyUsers <==> totalCount != 0 && totalCount != 1
  {
    if totalCount == 0 then NoUsers else if totalCount == 1 then OneUser else ManyUsers
  }

  /** The table caption: "No users", "One user", or `${totalCount} users`. */
  function Caption(totalCount: int): (c: string)
    ensures Classify(totalCount) == NoUsers ==> c == "No users"
    ensures Classify(totalCount) == OneUser ==> c == "One user"
    ensures Classify(totalCount) == ManyUsers ==> c == IntToString(totalCount) + " users"
  {
    match Classify(totalCount)
    case NoUsers => "No users"
    case OneUser => "One user"
    case ManyUsers => IntToString(totalCount) + " users"
  }

  /** The count can be read back from a plural caption. */
  lemma CaptionShowsCount(totalCount: int)
    requires totalCount != 0 && totalCount != 1
    ensures |Caption(totalCount)| > 6
    ensures var shown := Caption(totalCount)[..|Caption(totalCount)| - 6];
            IsDecimal(shown) && DecimalValue(shown) == totalCount
  {
    var c := Caption(totalCount);
    assert c[..|c| - 6] == IntToString(totalCount);
    IntToStringRoundTrip(totalCount);
  }

  /** Different counts never share a caption. */
  lemma CaptionInjective(a: int, b: int)
    requires Caption(a) == Caption(b)
    ensures a == b
  {
    var ca := Caption(a);
    if Classify(a) == ManyUsers && Classify(b) == ManyUsers {
      assert IntToString(a) == ca[..|ca| - 6] == IntToString(b);
      IntToStringInjective(a, b);
    } else {
      PluralCaptionDiffers(a);
      PluralCaptionDiffers(b);
    }
  }

  /** A plural caption never spells either singular caption. */
  lemma PluralCaptionDiffers(n: int)
    ensures IntToString(n) + " users" != "No users"
    ensures IntToString(n) + " users" != "One user"
  {
    var plural := IntToString(n) + " users";
    assert plural[0] == IntToString(n)[0];
    assert "No users"[0] == 'N';
    assert plural[|plural| - 1] == 's';
    assert "One user"[7] == 'r';
  }

  // ---------------------------------------------------------------------------
  // Deleting a user from the table

  /** The collaborator calls `onDeleteClick` awaits. */
  datatype Step = DeleteUser(id: string) | SignOut | SignIn

  /** Whether each awaited call resolves (true) or rejects (false). */
  datatype StepResults = StepResults(deleteResolves: bool, signOutResolves: bool, signInResolves: bool)

  const DeleteFailedMessage: string := "Failed to delete user"

  /** What `onDeleteClick(id)` sets out to do: delete, and for one's own account sign out and in again. */
  function Plan(id: string, sessionUserId: Option<string>): (plan: seq<Step>)
    ensures |plan| == (if sessionUserId == Some(id) then 3 else 1)
    ensures plan[0] == DeleteUser(id)
    ensures sessionUserId == Some(id) ==> plan[1] == SignOut && plan[2] == SignIn
    ensures SignOut in plan <==> sessionUserId == Some(id)
    ensures SignIn in plan <==> sessionUserId == Some(id)
  {
    [DeleteUser(id)] + (if sessionUserId == Some(id) then [SignOut, SignIn] else [])
  }

  predicate Resolves(step: Step, results: StepResults) {
    match step
    case DeleteUser(_) => results.deleteResolves
    case SignOut => results.signOutResolves
    case SignIn => results.signInResolves
  }

  predicate AllResolve(steps: seq<Step>, results: StepResults) {
    forall i :: 0 <= i < |steps| ==> Resolves(steps[i], results)
  }

  /** The steps of a plan that are actually started, awaited one by one: up to and including the first that rejects. */
  function Started(plan: seq<Step>, results: StepResults): seq<Step> {
    if plan == [] then []
    else [plan[0]] + (if Resolves(plan[0], results) then Started(plan[1..], results) else [])
  }

  /**
   * The started steps are a prefix of the plan; all of them but the last
   * resolved; and the whole plan is started and resolves exactly when every
   * step of it resolves.
   */
  lemma {:induction false} StartedIsPrefix(plan: seq<Step>, results: StepResults)
    ensures |Started(plan, results)| <= |plan|
    ensures Started(plan, results) == plan[..|Started(plan, results)|]
    ensures forall i :: 0 <= i < |Started(plan, results)| - 1 ==> Resolves(Started(plan, results)[i], results)
    ensures AllResolve(Started(plan, results), results) <==> AllResolve(plan, results)
    ensures AllResolve(plan, results) ==> Started(plan, results) == plan
  {
    if plan != [] {
      var rest := Started(plan[1..], results);
      StartedIsPrefix(plan[1..], results);
      var started := Started(plan, results);
      AllResolveCons(plan[0], plan[1..], results);
      assert plan == [plan[0]] + plan[1..];
      if Resolves(plan[0], results) {
        assert started == [plan[0]] + rest;
        AllResolveCons(plan[0], rest, results);
        assert plan[..|started|] == [plan[0]] + plan[1..][..|rest|];
        forall i | 0 <= i < |started| - 1
          ensures Resolves(started[i], results)
        {
          if i > 0 {
            assert started[i] == rest[i - 1];
          }
        }
      } else {
        assert started == [plan[0]];
        AllResolveCons(plan[0], [], results);
      }
    }
  }

  lemma AllResolveCons(step: Step, rest: seq<Step>, results: StepResults)
    ensures AllResolve([step] + rest, results) <==> Resolves(step, results) && AllResolve(rest, results)
  {
    if Resolves(step, results) && AllResolve(rest, results) {
      forall i | 0 <= i < |rest| + 1
        ensures Resolves(([step] + rest)[i], results)
      {
        if i > 0 {
          assert ([step] + rest)[i] == rest[i - 1];
        }
      }
    }
    if AllResolve([step] + rest, results) {
      assert Resolves(([step] + rest)[0], results);
      forall i | 0 <= i < |rest|
        ensures Resolves(rest[i], results)
      {
        assert ([step] + rest)[i + 1] == rest[i];
      }
    }
  }

  /** The delete request is always made first. */
  lemma DeleteComesFirst(id: string, sessionUserId: Option<string>, results: StepResults)
    ensures |Started(Plan(id, sessionUserId), results)| >= 1
    ensures Started(Plan(id, sessionUserId), results)[0] == DeleteUser(id)
  {
  }

  /**
   * Sign-out happens exactly when the deleted account is the session's own and
   * the deletion succeeded; sign-in exactly when, in addition, sign-out
   * succeeded, and then the calls were delete, sign-out, sign-in, in that order.
   */
  lemma SelfDeleteOrder(id: string, sessionUserId: Option<string>, results: StepResults)
    ensures SignOut in Started(Plan(id, sessionUserId), results) <==>
              sessionUserId == Some(id) && results.deleteResolves
    ensures SignIn in Started(Plan(id, sessionUserId), results) <==>
              sessionUserId == Some(id) && results.deleteResolves && results.signOutResolves
    ensures SignIn in Started(Plan(id, sessionUserId), results) ==>
              Started(Plan(id, sessionUserId), results) == [DeleteUser(id), SignOut, SignIn]
    ensures Started(Plan(id, sessionUserId), results) ==
              [DeleteUser(id)] +
              (if sessionUserId == Some(id) && results.deleteResolves then [SignOut] else []) +
              (if sessionUserId == Some(id) && results.deleteResolves && results.signOutResolves then [SignIn] else [])
  {
    var plan := Plan(id, sessionUserId);
    if sessionUserId == Some(id) {
      assert plan == [DeleteUser(id), SignOut, SignIn];
      assert plan[1..] == [SignOut, SignIn];
      assert plan[1..][1..] == [SignIn];
      assert plan[1..][1..][1..] == [];
      var tail := Started([SignIn], results);
      assert [SignIn][1..] == [] && Started([], results) == [];
      assert tail == [SignIn] + (if results.signInResolves then Started([], results) else []);
      var mid := Started([SignOut, SignIn], results);
      assert mid == [SignOut] + (if results.signOutResolves then tail else []);
      assert Started(plan, results) == [DeleteUser(id)] + (if results.deleteResolves then mid else []);
    } else {
      assert plan == [DeleteUser(id)];
      assert plan[1..] == [];
    }
  }

  /** The error is logged exactly when some awaited step rejected. */
  lemma FailureLoggedIff(id: string, sessionUserId: Option<string>, results: StepResults)
    ensures !AllResolve(Started(Plan(id, sessionUserId), results), results) <==>
              !results.deleteResolves ||
              (sessionUserId == Some(id) && (!results.signOutResolves || !results.signInResolves))
  {
    var plan := Plan(id, sessionUserId);
    StartedIsPrefix(plan, results);
    if sessionUserId == Some(id) {
      assert plan == [DeleteUser(id), SignOut, SignIn];
      assert Resolves(plan[1], results) == results.signOutResolves;
      assert Resolves(plan[2], results) == results.signInResolves;
    } else {
      assert plan == [DeleteUser(id)];
    }
  }

  /**
   * The page's effects: the collaborator calls made so far, the entries
   * written to `console.error`, and the session user seen by the callback.
   */
  class UserPageEffects {
    var calls: seq<Step>
    var consoleErrors: seq<string>
    var sessionUserId: Option<string>

    constructor (sessionUserId: Option<string>)
      ensures calls == [] && consoleErrors == [] && this.sessionUserId == sessionUserId
    {
      calls := [];
      consoleErrors := [];
      this.sessionUserId := sessionUserId;
    }

    /**
     * `onDeleteClick(id)`: each awaited call is made only once the previous
     * one resolved; a rejection anywhere is caught and logged, never rethrown.
     */
    method OnDeleteClick(id: string, results: StepResults)
      modifies this`calls, this`consoleErrors
      ensures calls == old(calls) + Started(Plan(id, sessionUserId), results)
      ensures consoleErrors ==
                old(consoleErrors) +
                (if AllResolve(Started(Plan(id, sessionUserId), results), results) then [] else [DeleteFailedMessage])
    {
      ghost var plan := Plan(id, sessionUserId);
      var isUpdatedCurrentUser := sessionUserId == Some(id);
      var failed := false;
      calls := calls + [DeleteUser(id)];
      if !results.deleteResolves {
        failed := true;
      } else if isUpdatedCurrentUser {
        calls := calls + [SignOut];
        if !results.signOutResolves {
          failed := true;
        } else {
          calls := calls + [SignIn];
          failed := !results.signInResolves;
        }
      }
      if failed {
        consoleErrors := consoleErrors + [DeleteFailedMessage];
      }
      SelfDeleteOrder(id, sessionUserId, results);
      FailureLoggedIff(id, sessionUserId, results);
      if isUpdatedCurrentUser {
        assert plan[1..][1..][1..] == [];
      } else {
        assert plan[1..] == [];
      }
    }
  }
}
