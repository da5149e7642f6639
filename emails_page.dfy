/**
 * The logic of the mail page (src/pages/EmailsPage.tsx) without its markup:
 * the page of ten messages that is shown, the number of pages, the pager's
 * buttons, and the state changes made by the "refresh" handler, by choosing
 * a page and by selecting a message.
 *
 * The page's state cells (`useState`) are the fields of an `EmailsPage`
 * object; each handler is one atomic step. The network call is replaced by
 * its outcome, given to the handler as a `FetchOutcome`.
 */
module EmailsPageModel {
  import opened Wrappers
  import opened JsText
  import opened EmailTypes
  import opened EmailService

  const EMAILS_PER_PAGE: nat := 10
  /** The page always asks for 25 messages. */
  const LOAD_LIMIT: int := 25
  const LOAD_ERROR_FALLBACK: string := "Ошибка загрузки писем"

  function Min(a: int, b: int): int {
    if a < b then a else b
  }

  function Max(a: int, b: int): int {
    if a < b then b else a
  }

  // ---------------------------------------------------------------------------
  // Pagination
  // ---------------------------------------------------------------------------

  /** How `Array.prototype.slice` turns an integer argument into an index. */
  function ClampIndex(i: int, len: nat): (r: nat)
    ensures r <= len
    ensures 0 <= i ==> r == Min(i, len)
  {
    if i < 0 then Max(len + i, 0) else Min(i, len)
  }

  /** `s.slice(start, end)` for integer arguments; negative ones count from the end. */
  function JsSlice<T>(s: seq<T>, start: int, end: int): (r: seq<T>)
    ensures |r| <= |s|
  {
    var from := ClampIndex(start, |s|);
    var to := ClampIndex(end, |s|);
    if from < to then s[from..to] else []
  }

  /** `currentEmails` when the current page is `page`. */
  function PageOf(emails: seq<EmailMessage>, page: int): seq<EmailMessage> {
    var indexOfLastEmail := page * EMAILS_PER_PAGE;
    var indexOfFirstEmail := indexOfLastEmail - EMAILS_PER_PAGE;
    JsSlice(emails, indexOfFirstEmail, indexOfLastEmail)
  }

  /** `Math.ceil(count / 10)`. */
  function TotalPages(count: nat): (r: nat)
    ensures r * EMAILS_PER_PAGE >= count
    ensures r > 0 ==> (r - 1) * EMAILS_PER_PAGE < count
    ensures r == 0 <==> count == 0
  {
    (count + EMAILS_PER_PAGE - 1) / EMAILS_PER_PAGE
  }

  /** Page `p` holds the messages at indices `(p-1)*10` up to, not including, `min(p*10, |emails|)`. */
  lemma PageWindow(emails: seq<EmailMessage>, page: int)
    requires page >= 1
    ensures PageOf(emails, page)
         == emails[Min((page - 1) * EMAILS_PER_PAGE, |emails|)..Min(page * EMAILS_PER_PAGE, |emails|)]
    ensures |PageOf(emails, page)| <= EMAILS_PER_PAGE
  {
  }

  /** A page from 1 on shows something exactly when it is one of the `totalPages` pages. */
  lemma PageNonEmptyIffInRange(emails: seq<EmailMessage>, page: int)
    requires page >= 1
    ensures PageOf(emails, page) != [] <==> page <= TotalPages(|emails|)
  {
    PageWindow(emails, page);
  }

  /** Pages 1 to `k`, one after the other. */
  function PagesUpTo(emails: seq<EmailMessage>, k: nat): seq<EmailMessage> {
    if k == 0 then [] else PagesUpTo(emails, k - 1) + PageOf(emails, k)
  }

  lemma {:induction false} PagesUpToPrefix(emails: seq<EmailMessage>, k: nat)
    ensures PagesUpTo(emails, k) == emails[..Min(k * EMAILS_PER_PAGE, |emails|)]
  {
    if k > 0 {
      PagesUpToPrefix(emails, k - 1);
      PageWindow(emails, k);
      var a := Min((k - 1) * EMAILS_PER_PAGE, |emails|);
      var b := Min(k * EMAILS_PER_PAGE, |emails|);
      assert emails[..a] + emails[a..b] == emails[..b];
    }
  }

  /** Reading pages 1 to `totalPages` in turn gives the whole list in its own order. */
  lemma PagesCoverList(emails: seq<EmailMessage>)
    ensures PagesUpTo(emails, TotalPages(|emails|)) == emails
  {
    PagesUpToPrefix(emails, TotalPages(|emails|));
    assert emails[..|emails|] == emails;
  }

  /** Message `i` is shown at position `i % 10` of page `i / 10 + 1`. */
  lemma MessageOnItsPage(emails: seq<EmailMessage>, i: nat)
    requires i < |emails|
    ensures 1 <= i / EMAILS_PER_PAGE + 1 <= TotalPages(|emails|)
    ensures var page := PageOf(emails, i / EMAILS_PER_PAGE + 1);
            i % EMAILS_PER_PAGE < |page| && page[i % EMAILS_PER_PAGE] == emails[i]
  {
    PageWindow(emails, i / EMAILS_PER_PAGE + 1);
  }

  /** Twenty-five messages make three pages, and the third shows messages 20 to 24. */
  lemma TwentyFiveMessages(emails: seq<EmailMessage>)
    requires |emails| == 25
    ensures TotalPages(|emails|) == 3
    ensures PageOf(emails, 3) == emails[20..25] && |PageOf(emails, 3)| == 5
  {
    PageWindow(emails, 3);
  }

  // ---------------------------------------------------------------------------
  // The pager
  // ---------------------------------------------------------------------------

  /** A previous / next button: the page it asks for and whether it is disabled. */
  datatype NavButton = NavButton(target: int, disabled: bool)

  datatype Pager = Hidden | Shown(prev: NavButton, pages: seq<int>, next: NavButton)

  /**
   * The pager under the list. With no message and no load in progress the
   * list is replaced by a hint, and so is the pager; otherwise it appears
   * when there is more than one page.
   */
  function PagerView(emailCount: nat, loading: bool, currentPage: int): (p: Pager)
    ensures p.Shown? <==> TotalPages(emailCount) > 1
    ensures p.Shown? ==> p.prev.target == currentPage - 1 && (p.prev.disabled <==> currentPage == 1)
    ensures p.Shown? ==> p.next.target == currentPage + 1
                         && (p.next.disabled <==> currentPage == TotalPages(emailCount))
    ensures p.Shown? ==> forall n :: n in p.pages <==> 1 <= n <= TotalPages(emailCount)
    ensures p.Shown? ==> |p.pages| == TotalPages(emailCount) && forall i :: 0 <= i < |p.pages| ==> p.pages[i] == i + 1
  {
    var totalPages := TotalPages(emailCount);
    if emailCount == 0 && !loading then Hidden
    else if totalPages > 1 then
      var pages := seq(totalPages, i => i + 1);
      assert forall n :: n in pages <==> 1 <= n <= totalPages by {
        forall n | 1 <= n <= totalPages ensures n in pages {
          assert pages[n - 1] == n;
        }
      }
      Shown(NavButton(currentPage - 1, currentPage == 1), pages,
            NavButton(currentPage + 1, currentPage == totalPages))
    else Hidden
  }

  /** A page number the pager lets the user click. */
  predicate Clickable(p: Pager, target: int) {
    && p.Shown?
    && ((!p.prev.disabled && target == p.prev.target)
        || target in p.pages
        || (!p.next.disabled && target == p.next.target))
  }

  /** From a page in range, every page the pager offers is in range too. */
  lemma PagerKeepsPageInRange(emailCount: nat, loading: bool, currentPage: int, target: int)
    requires 1 <= currentPage <= Max(1, TotalPages(emailCount))
    requires Clickable(PagerView(emailCount, loading, currentPage), target)
    ensures 1 <= target <= TotalPages(emailCount)
  {
  }

  // ---------------------------------------------------------------------------
  // The page's state
  // ---------------------------------------------------------------------------

  /** What the awaited `fetchEmails` call did: answer, or throw with an optional `detail`. */
  datatype FetchOutcome = Responded(response: EmailFetchResponse) | Threw(detail: Option<string>)

  class EmailsPage {
    var emails: seq<EmailMessage>
    var loadingEmails: bool
    var emailError: Option<string>
    var currentPage: int
    var selectedEmail: Option<EmailMessage>

    /** The current page is one the pager can show (page 1 when there are none). */
    ghost predicate Valid()
      reads this
    {
      1 <= currentPage <= Max(1, TotalPages(|emails|))
    }

    constructor ()
      ensures emails == [] && !loadingEmails && emailError == None
      ensures currentPage == 1 && selectedEmail == None
      ensures Valid()
    {
      emails := [];
      loadingEmails := false;
      emailError := None;
      currentPage := 1;
      selectedEmail := None;
    }

    /**
     * `handleLoadEmails`: ask for 25 messages; on success show them from
     * page 1, otherwise keep the list and page and show the error. The
     * selection is never touched and loading always ends. Returns the body
     * that is posted.
     */
    method HandleLoadEmails(outcome: FetchOutcome) returns (request: FetchBody)
      modifies this`emails, this`loadingEmails, this`emailError, this`currentPage
      ensures request == FetchBody("INBOX", 25, "ALL", true)
      ensures !loadingEmails && selectedEmail == old(selectedEmail)
      ensures outcome.Responded? && outcome.response.success ==>
                emails == outcome.response.emails && currentPage == 1 && emailError == None
      ensures outcome.Responded? && !outcome.response.success ==>
                emails == old(emails) && currentPage == old(currentPage)
                && emailError == Some(outcome.response.message)
      ensures outcome.Threw? ==>
                emails == old(emails) && currentPage == old(currentPage)
                && emailError == Some(OrElse(outcome.detail, LOAD_ERROR_FALLBACK))
      ensures old(Valid()) ==> Valid()
    {
      loadingEmails := true;
      emailError := None;
      request := RequestBody(EmailFetchRequest(None, Some(LOAD_LIMIT), None, None));
      match outcome {
        case Responded(response) =>
          if response.success {
            emails := response.emails;
            currentPage := 1;
          } else {
            emailError := Some(response.message);
          }
        case Threw(detail) =>
          emailError := Some(OrElse(detail, LOAD_ERROR_FALLBACK));
      }
      loadingEmails := false;
    }

    /**
     * `handlePageChange`: go to `pageNumber` and drop the selection; the list,
     * the error and the loading flag stay. A page the pager offers keeps the
     * page in range.
     */
    method HandlePageChange(pageNumber: int)
      modifies this`currentPage, this`selectedEmail
      ensures currentPage == pageNumber && selectedEmail == None
      ensures old(Valid()) && Clickable(PagerView(|emails|, loadingEmails, old(currentPage)), pageNumber) ==>
                Valid()
    {
      if Valid() && Clickable(PagerView(|emails|, loadingEmails, currentPage), pageNumber) {
        PagerKeepsPageInRange(|emails|, loadingEmails, currentPage, pageNumber);
      }
      currentPage := pageNumber;
      selectedEmail := None;
    }

    /** Clicking a message in the list selects it. */
    method SelectEmail(email: EmailMessage)
      modifies this`selectedEmail
      ensures selectedEmail == Some(email)
    {
      selectedEmail := Some(email);
    }
  }
}
