/** The chat page's state (frontend/app/page.tsx): the draft, the shown
    messages, the current thread, the loading flag and the sign-in state,
    with the handlers that change them. The API client's calls are
    parameters; each either answers or fails with an error message. Every
    `await` is taken to finish before the user acts again. */
module ChatPage {
  import opened Common
  import opened Text

  /** One shown message: the optimistic ones the page adds and those the
      server's transcript holds. */
  datatype UiMessage = UiMessage(role: string, content: string)

  /** The assistant message shown when sending fails. */
  function ErrorNotice(message: string): (r: UiMessage)
    ensures r.role == "assistant"
    ensures StartsWith(r.content, "Sorry, I encountered an error: ")
    ensures EndsWith(r.content, ". Please try again.")
    ensures |r.content| == 31 + |message| + 19 && r.content[31..|r.content| - 19] == message
  {
    var head := "Sorry, I encountered an error: ";
    var tail := ". Please try again.";
    var c := head + message + tail;
    assert c[..|head|] == head;
    assert c[|c| - |tail|..] == tail;
    assert c[|head|..|c| - |tail|] == message;
    UiMessage("assistant", c)
  }

  /** The messages shown after the transcript fetch: the server's list,
      which replaces the shown ones, or the shown ones and the notice. */
  function Shown(shown: seq<UiMessage>, fetched: Result<seq<UiMessage>, string>): seq<UiMessage> {
    match fetched
    case Ok(transcript) => transcript
    case Err(e) => shown + [ErrorNotice(e)]
  }

  class ChatState {
    var draft: string
    var messages: seq<UiMessage>
    var threadId: Option<string>
    var loading: bool
    var isLoggedIn: bool
    var showAuth: bool

    constructor ()
      ensures draft == "" && messages == [] && threadId == None
      ensures !loading && !isLoggedIn && !showAuth
    {
      draft := "";
      messages := [];
      threadId := None;
      loading := false;
      isLoggedIn := false;
      showAuth := false;
    }

    /** `!threadId`: no thread yet (an empty id counts as none). */
    predicate HasThread()
      reads this
    {
      threadId.Some? && threadId.value != ""
    }

    /** `sendMessage`. `createThread(text, mode)` answers the new thread's
        id, `addMessage(id, text)` answers nothing of use, `getThread(id)`
        answers the thread's transcript. */
    method SendMessage(createThread: (string, string) -> Result<string, string>,
                       addMessage: (string, string) -> Result<(), string>,
                       getThread: string -> Result<seq<UiMessage>, string>)
      modifies this
      ensures IsJsBlank(old(draft)) || old(loading) ==>
        draft == old(draft) && messages == old(messages) && threadId == old(threadId)
        && loading == old(loading) && showAuth == old(showAuth) && isLoggedIn == old(isLoggedIn)
      ensures !IsJsBlank(old(draft)) && !old(loading) && !old(isLoggedIn) ==>
        showAuth && draft == old(draft) && messages == old(messages) && threadId == old(threadId)
        && loading == old(loading) && isLoggedIn == old(isLoggedIn)
      ensures !IsJsBlank(old(draft)) && !old(loading) && old(isLoggedIn) ==>
        var text := old(draft);
        var shown := old(messages) + [UiMessage("user", text)];
        draft == "" && !loading && isLoggedIn && showAuth == old(showAuth)
        && (!old(HasThread()) ==>
              var created := createThread(text, "quick");
              (created.Err? ==> messages == shown + [ErrorNotice(created.error)] && threadId == old(threadId))
              && (created.Ok? ==>
                    threadId == Some(created.value) && messages == Shown(shown, getThread(created.value))))
        && (old(HasThread()) ==>
              var id := old(threadId).value;
              threadId == old(threadId)
              && (addMessage(id, text).Err? ==> messages == shown + [ErrorNotice(addMessage(id, text).error)])
              && (addMessage(id, text).Ok? ==> messages == Shown(shown, getThread(id))))
    {
      if IsJsBlank(draft) || loading {
        return;
      }
      if !isLoggedIn {
        showAuth := true;
        return;
      }
      var text := draft;
      draft := "";
      loading := true;
      messages := messages + [UiMessage("user", text)];
      var failure: Option<string> := None;
      if !HasThread() {
        var created := createThread(text, "quick");
        if created.Err? {
          failure := Some(created.error);
        } else {
          threadId := Some(created.value);
          var thread := getThread(created.value);
          if thread.Err? {
            failure := Some(thread.error);
          } else {
            messages := thread.value;
          }
        }
      } else {
        var added := addMessage(threadId.value, text);
        if added.Err? {
          failure := Some(added.error);
        } else {
          var thread := getThread(threadId.value);
          if thread.Err? {
            failure := Some(thread.error);
          } else {
            messages := thread.value;
          }
        }
      }
      if failure.Some? {
        messages := messages + [ErrorNotice(failure.value)];
      }
      loading := false;
    }

    /** `handleLogin`: signed in and the panel closed on success; otherwise
        the alert and no change. */
    method HandleLogin(email: string, password: string, login: (string, string) -> Result<(), string>)
      returns (alert: Option<string>)
      modifies this
      ensures login(email, password).Ok? ==> alert.None? && isLoggedIn && !showAuth
      ensures login(email, password).Err? ==>
        alert == Some("Login failed: " + login(email, password).error)
        && isLoggedIn == old(isLoggedIn) && showAuth == old(showAuth)
      ensures draft == old(draft) && messages == old(messages) && threadId == old(threadId) && loading == old(loading)
    {
      var r := login(email, password);
      if r.Err? {
        return Some("Login failed: " + r.error);
      }
      isLoggedIn := true;
      showAuth := false;
      alert := None;
    }

    /** `handleRegister`: registration, then sign-in; only when both
        succeed is the user signed in. */
    method HandleRegister(email: string, password: string, fullName: string,
                          register: (string, string, string) -> Result<(), string>,
                          login: (string, string) -> Result<(), string>)
      returns (alert: Option<string>)
      modifies this
      ensures register(email, password, fullName).Ok? && login(email, password).Ok? ==>
        alert.None? && isLoggedIn && !showAuth
      ensures register(email, password, fullName).Err? ==>
        alert == Some("Registration failed: " + register(email, password, fullName).error)
        && isLoggedIn == old(isLoggedIn) && showAuth == old(showAuth)
      ensures register(email, password, fullName).Ok? && login(email, password).Err? ==>
        alert == Some("Registration failed: " + login(email, password).error)
        && isLoggedIn == old(isLoggedIn) && showAuth == old(showAuth)
      ensures draft == old(draft) && messages == old(messages) && threadId == old(threadId) && loading == old(loading)
    {
      var registered := register(email, password, fullName);
      if registered.Err? {
        return Some("Registration failed: " + registered.error);
      }
      var signedIn := login(email, password);
      if signedIn.Err? {
        return Some("Registration failed: " + signedIn.error);
      }
      isLoggedIn := true;
      showAuth := false;
      alert := None;
    }
  }
}
