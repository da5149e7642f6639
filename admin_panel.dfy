/**
 * The rules of the user-administration page (src/pages/AdminPanel.tsx): which
 * action buttons each row of the user table offers, and the checks the
 * "create user" and "edit user" dialogs run, in order, before they call the
 * admin service.
 *
 * Each check sequence is a function from the form to the first error
 * message, `None` when the service is called. Each dialog is an object whose
 * fields are its state cells; `HandleSubmit` is given the outcome of the
 * service call it may make.
 */
module AdminPanelModel {
  import opened Wrappers
  import opened JsText
  import opened UserTypes

  const REQUIRED_FIELDS_ERROR: string := "Заполните все обязательные поля"
  const USERNAME_TOO_SHORT_ERROR: string := "Имя пользователя должно содержать минимум 3 символа"
  const PASSWORD_TOO_SHORT_ERROR: string := "Пароль должен содержать минимум 8 символов"
  const CREATE_FAILED_FALLBACK: string := "Ошибка создания пользователя"
  const EMPTY_IDENTITY_ERROR: string := "Email и имя пользователя не могут быть пустыми"
  const SELF_DEACTIVATION_ERROR: string := "Вы не можете деактивировать свой собственный аккаунт"
  const UPDATE_FAILED_FALLBACK: string := "Ошибка обновления пользователя"
  const LOAD_USERS_FALLBACK: string := "Ошибка загрузки пользователей"
  const ACTIVATE_FAILED_FALLBACK: string := "Ошибка активации"
  const DEACTIVATE_FAILED_FALLBACK: string := "Ошибка деактивации"
  const DELETE_FAILED_FALLBACK: string := "Ошибка удаления"

  const MIN_USERNAME_LENGTH: nat := 3
  const MIN_PASSWORD_LENGTH: nat := 8

  /** `!s.trim()`. */
  predicate Blank(s: string) {
    Trim(s) == ""
  }

  /** `!o?.trim()` on an optional string. */
  predicate MissingOrBlank(o: Option<string>) {
    o.None? || Blank(o.value)
  }

  lemma MissingOrBlankIff(o: Option<string>)
    ensures MissingOrBlank(o) <==> o.None? || AllWhitespace(o.value)
  {
    if o.Some? {
      TrimEmptyIff(o.value);
    }
  }

  // ---------------------------------------------------------------------------
  // Row actions
  // ---------------------------------------------------------------------------

  datatype RowAction = Edit | Activate | Deactivate | Delete

  /** The buttons of a user's row, left to right. */
  function RowActions(user: User, currentUser: User): (actions: seq<RowAction>)
    ensures |actions| > 0 && actions[0] == Edit
    ensures Delete in actions <==> user.id != currentUser.id
    ensures Deactivate in actions <==> user.id != currentUser.id && user.isActive
    ensures Activate in actions <==> user.id != currentUser.id && !user.isActive
    ensures !(Activate in actions && Deactivate in actions)
    ensures |actions| == if user.id == currentUser.id then 1 else 3
  {
    [Edit] + (if user.id != currentUser.id then [if user.isActive then Deactivate else Activate, Delete] else [])
  }

  // ---------------------------------------------------------------------------
  // Create dialog
  // ---------------------------------------------------------------------------

  /** The three checks of the create dialog, in order; `None` means `createUser` is called. */
  function ValidateCreate(form: UserCreate): Option<string> {
    if Blank(form.email) || Blank(form.username) || Blank(form.password) then Some(REQUIRED_FIELDS_ERROR)
    else if |form.username| < MIN_USERNAME_LENGTH then Some(USERNAME_TOO_SHORT_ERROR)
    else if |form.password| < MIN_PASSWORD_LENGTH then Some(PASSWORD_TOO_SHORT_ERROR)
    else None
  }

  /**
   * Which message the create checks give: the required-fields check, on
   * characters, comes before both length checks, and the form passes only
   * when all three hold.
   */
  lemma ValidateCreateOrder(form: UserCreate)
    ensures ValidateCreate(form) == Some(REQUIRED_FIELDS_ERROR) <==>
              AllWhitespace(form.email) || AllWhitespace(form.username) || AllWhitespace(form.password)
    ensures ValidateCreate(form) == Some(USERNAME_TOO_SHORT_ERROR) <==>
              !AllWhitespace(form.email) && !AllWhitespace(form.username) && !AllWhitespace(form.password)
              && |form.username| < MIN_USERNAME_LENGTH
    ensures ValidateCreate(form) == Some(PASSWORD_TOO_SHORT_ERROR) <==>
              !AllWhitespace(form.email) && !AllWhitespace(form.username) && !AllWhitespace(form.password)
              && |form.username| >= MIN_USERNAME_LENGTH && |form.password| < MIN_PASSWORD_LENGTH
    ensures ValidateCreate(form) == None <==>
              !AllWhitespace(form.email) && !AllWhitespace(form.username) && !AllWhitespace(form.password)
              && |form.username| >= MIN_USERNAME_LENGTH && |form.password| >= MIN_PASSWORD_LENGTH
  {
    TrimEmptyIff(form.email);
    TrimEmptyIff(form.username);
    TrimEmptyIff(form.password);
  }

  /** The username length is measured before trimming: `"  a"` passes the length check. */
  lemma UsernameLengthIsUntrimmed()
    ensures ValidateCreate(UserCreate("a@b.c", "  a", "password", None, None)) == None
  {
    var form := UserCreate("a@b.c", "  a", "password", None, None);
    assert !IsWhitespace(form.email[0]) && !IsWhitespace(form.username[2]) && !IsWhitespace(form.password[0]);
    assert |form.username| == 3 && |form.password| == 8;
    ValidateCreateOrder(form);
  }

  /** What the service call or its failure did. */
  datatype ServiceOutcome = Succeeded | Failed(detail: Option<string>)

  class CreateUserModal {
    var formData: UserCreate
    var loading: bool
    var error: Option<string>

    constructor ()
      ensures formData == UserCreate("", "", "", Some(""), Some(""))
      ensures !loading && error == None
    {
      formData := UserCreate("", "", "", Some(""), Some(""));
      loading := false;
      error := None;
    }

    /** An input's `onChange`: the form takes the edited value. */
    method UpdateForm(form: UserCreate)
      modifies this`formData
      ensures formData == form
    {
      formData := form;
    }

    /**
     * `handleSubmit`: run the checks; the first failing one sets its message
     * and the service is not called. Otherwise `createUser` is called and its
     * failure, if any, is shown. Loading always ends false.
     * `succeeded` says that `onSuccess` was called.
     */
    method HandleSubmit(service: ServiceOutcome) returns (createCalled: bool, succeeded: bool)
      modifies this`loading, this`error
      ensures createCalled <==> ValidateCreate(formData) == None
      ensures !createCalled ==> !succeeded && error == ValidateCreate(formData)
      ensures createCalled ==> (succeeded <==> service.Succeeded?)
      ensures createCalled && service.Succeeded? ==> error == None
      ensures createCalled && service.Failed? ==> error == Some(OrElse(service.detail, CREATE_FAILED_FALLBACK))
      ensures !loading
    {
      loading := true;
      error := None;
      createCalled, succeeded := false, false;
      var form := formData;
      ghost var verdict := ValidateCreate(form);

      if Blank(form.email) || Blank(form.username) || Blank(form.password) {
        assert verdict == Some(REQUIRED_FIELDS_ERROR);
        error := Some(REQUIRED_FIELDS_ERROR);
        loading := false;
        return;
      }
      if |form.username| < MIN_USERNAME_LENGTH {
        assert verdict == Some(USERNAME_TOO_SHORT_ERROR);
        error := Some(USERNAME_TOO_SHORT_ERROR);
        loading := false;
        return;
      }
      if |form.password| < MIN_PASSWORD_LENGTH {
        assert verdict == Some(PASSWORD_TOO_SHORT_ERROR);
        error := Some(PASSWORD_TOO_SHORT_ERROR);
        loading := false;
        return;
      }

      assert verdict == None;
      createCalled := true;
      match service {
        case Succeeded =>
          succeeded := true;
        case Failed(detail) =>
          error := Some(OrElse(detail, CREATE_FAILED_FALLBACK));
      }
      loading := false;
    }
  }

  // ---------------------------------------------------------------------------
  // Edit dialog
  // ---------------------------------------------------------------------------

  /** The two checks of the edit dialog, in order; `None` means `updateUser` is called. */
  function ValidateEdit(form: UserUpdate, userId: int, currentUserId: int): Option<string> {
    if MissingOrBlank(form.email) || MissingOrBlank(form.username) then Some(EMPTY_IDENTITY_ERROR)
    else if userId == currentUserId && form.isActive == Some(false) then Some(SELF_DEACTIVATION_ERROR)
    else None
  }

  /**
   * Which message the edit checks give: a missing or all-whitespace email or
   * username comes first; after it, only an explicit `is_active = false` on
   * one's own account is refused.
   */
  lemma ValidateEditOrder(form: UserUpdate, userId: int, currentUserId: int)
    ensures ValidateEdit(form, userId, currentUserId) == Some(EMPTY_IDENTITY_ERROR) <==>
              form.email.None? || form.username.None?
              || AllWhitespace(form.email.value) || AllWhitespace(form.username.value)
    ensures ValidateEdit(form, userId, currentUserId) == Some(SELF_DEACTIVATION_ERROR) <==>
              form.email.Some? && form.username.Some?
              && !AllWhitespace(form.email.value) && !AllWhitespace(form.username.value)
              && userId == currentUserId && form.isActive == Some(false)
    ensures ValidateEdit(form, userId, currentUserId) == None <==>
              form.email.Some? && form.username.Some?
              && !AllWhitespace(form.email.value) && !AllWhitespace(form.username.value)
              && !(userId == currentUserId && form.isActive == Some(false))
  {
    MissingOrBlankIff(form.email);
    MissingOrBlankIff(form.username);
  }

  /** The form the edit dialog opens with for `user`. */
  function InitialEditForm(user: User): (form: UserUpdate)
    ensures form.email == Some(user.email) && form.username == Some(user.username)
    ensures form.isActive == Some(user.isActive) && form.isSuperuser == Some(user.isSuperuser)
    ensures form.fullName == Some(OrElse(user.fullName, ""))
    ensures form.password.None? && form.emailPassword.None?
  {
    UserUpdate(Some(user.email), Some(user.username), None, Some(OrElse(user.fullName, "")),
               None, Some(user.isActive), Some(user.isSuperuser))
  }

  class EditUserModal {
    const user: User
    const currentUser: User
    var formData: UserUpdate
    var loading: bool
    var error: Option<string>

    /** Editing oneself, the "active" box cannot be changed, so it keeps the user's own value. */
    ghost predicate Valid()
      reads this
    {
      user.id == currentUser.id ==> formData.isActive == Some(user.isActive)
    }

    /** While `Valid` holds, an active user editing themself never meets the self-deactivation error. */
    lemma ActiveSelfNeverSelfDeactivates()
      requires Valid() && user.id == currentUser.id && user.isActive
      ensures ValidateEdit(formData, user.id, currentUser.id) != Some(SELF_DEACTIVATION_ERROR)
    {
    }

    constructor (user: User, currentUser: User)
      ensures this.user == user && this.currentUser == currentUser
      ensures formData == InitialEditForm(user)
      ensures !loading && error == None
      ensures Valid()
    {
      this.user := user;
      this.currentUser := currentUser;
      formData := InitialEditForm(user);
      loading := false;
      error := None;
    }

    /** A text input's `onChange`: email, username or full name take the edited value. */
    method UpdateText(email: Option<string>, username: Option<string>, fullName: Option<string>)
      requires Valid()
      modifies this`formData
      ensures formData == old(formData).(email := email, username := username, fullName := fullName)
      ensures Valid()
    {
      formData := formData.(email := email, username := username, fullName := fullName);
    }

    /** The "active" checkbox; it is disabled on one's own row. */
    method ToggleActive(checked: bool)
      requires Valid()
      modifies this`formData
      ensures formData == if user.id == currentUser.id then old(formData)
                          else old(formData).(isActive := Some(checked))
      ensures Valid()
    {
      if user.id != currentUser.id {
        formData := formData.(isActive := Some(checked));
      }
    }

    /** The "administrator" checkbox; it is disabled on one's own row. */
    method ToggleSuperuser(checked: bool)
      requires Valid()
      modifies this`formData
      ensures formData == if user.id == currentUser.id then old(formData)
                          else old(formData).(isSuperuser := Some(checked))
      ensures Valid()
    {
      if user.id != currentUser.id {
        formData := formData.(isSuperuser := Some(checked));
      }
    }

    /**
     * `handleSubmit`: run the checks; the first failing one sets its message
     * and the service is not called. Otherwise `updateUser(user.id, formData)`
     * is called and its failure, if any, is shown. Loading always ends false.
     */
    method HandleSubmit(service: ServiceOutcome) returns (updateCalled: bool, succeeded: bool)
      modifies this`loading, this`error
      ensures updateCalled <==> ValidateEdit(formData, user.id, currentUser.id) == None
      ensures !updateCalled ==> !succeeded && error == ValidateEdit(formData, user.id, currentUser.id)
      ensures updateCalled ==> (succeeded <==> service.Succeeded?)
      ensures updateCalled && service.Succeeded? ==> error == None
      ensures updateCalled && service.Failed? ==> error == Some(OrElse(service.detail, UPDATE_FAILED_FALLBACK))
      ensures !loading
    {
      loading := true;
      error := None;
      updateCalled, succeeded := false, false;
      ghost var verdict := ValidateEdit(formData, user.id, currentUser.id);

      if MissingOrBlank(formData.email) || MissingOrBlank(formData.username) {
        assert verdict == Some(EMPTY_IDENTITY_ERROR);
        error := Some(EMPTY_IDENTITY_ERROR);
        loading := false;
        return;
      }
      if user.id == currentUser.id && formData.isActive == Some(false) {
        assert verdict == Some(SELF_DEACTIVATION_ERROR);
        error := Some(SELF_DEACTIVATION_ERROR);
        loading := false;
        return;
      }

      assert verdict == None;
      updateCalled := true;
      match service {
        case Succeeded =>
          succeeded := true;
        case Failed(detail) =>
          error := Some(OrElse(detail, UPDATE_FAILED_FALLBACK));
      }
      loading := false;
    }
  }

  // ---------------------------------------------------------------------------
  // The user table
  // ---------------------------------------------------------------------------

  /** What `getAllUsers` did: return the list, or throw with an optional `detail`. */
  datatype UsersOutcome = Loaded(users: seq<User>) | LoadFailed(detail: Option<string>)

  /**
   * The page's own state cells. `onSuccess` of a dialog and each successful
   * row action reload the table through `LoadUsers`; the reload is given its
   * outcome as a parameter.
   */
  class AdminPanel {
    var users: seq<User>
    var loading: bool
    var error: Option<string>

    constructor ()
      ensures users == [] && !loading && error == None
    {
      users := [];
      loading := false;
      error := None;
    }

    /** `loadUsers`: clear the error, fetch all users; keep the old table and show the error on failure. */
    method LoadUsers(outcome: UsersOutcome)
      modifies this`users, this`loading, this`error
      ensures outcome.Loaded? ==> users == outcome.users && error == None
      ensures outcome.LoadFailed? ==>
                users == old(users) && error == Some(OrElse(outcome.detail, LOAD_USERS_FALLBACK))
      ensures !loading
    {
      loading := true;
      error := None;
      match outcome {
        case Loaded(all) =>
          users := all;
        case LoadFailed(detail) =>
          error := Some(OrElse(detail, LOAD_USERS_FALLBACK));
      }
      loading := false;
    }

    /**
     * The common shape of the three row handlers: call the service; on
     * success reload the table, on failure show the detail or `fallback`
     * and leave the table and the loading flag alone.
     */
    method RowActionDone(fallback: string, service: ServiceOutcome, reload: UsersOutcome)
      modifies this`users, this`loading, this`error
      ensures service.Succeeded? && reload.Loaded? ==> users == reload.users && error == None && !loading
      ensures service.Succeeded? && reload.LoadFailed? ==>
                users == old(users) && error == Some(OrElse(reload.detail, LOAD_USERS_FALLBACK)) && !loading
      ensures service.Failed? ==>
                users == old(users) && loading == old(loading) && error == Some(OrElse(service.detail, fallback))
    {
      match service {
        case Succeeded =>
          LoadUsers(reload);
        case Failed(detail) =>
          error := Some(OrElse(detail, fallback));
      }
    }

    /** `handleActivate`. */
    method HandleActivate(service: ServiceOutcome, reload: UsersOutcome)
      modifies this`users, this`loading, this`error
      ensures service.Succeeded? && reload.Loaded? ==> users == reload.users && error == None && !loading
      ensures service.Succeeded? && reload.LoadFailed? ==>
                users == old(users) && error == Some(OrElse(reload.detail, LOAD_USERS_FALLBACK)) && !loading
      ensures service.Failed? ==>
                users == old(users) && loading == old(loading)
                && error == Some(OrElse(service.detail, ACTIVATE_FAILED_FALLBACK))
    {
      RowActionDone(ACTIVATE_FAILED_FALLBACK, service, reload);
    }

    /** `handleDeactivate`. */
    method HandleDeactivate(service: ServiceOutcome, reload: UsersOutcome)
      modifies this`users, this`loading, this`error
      ensures service.Succeeded? && reload.Loaded? ==> users == reload.users && error == None && !loading
      ensures service.Succeeded? && reload.LoadFailed? ==>
                users == old(users) && error == Some(OrElse(reload.detail, LOAD_USERS_FALLBACK)) && !loading
      ensures service.Failed? ==>
                users == old(users) && loading == old(loading)
                && error == Some(OrElse(service.detail, DEACTIVATE_FAILED_FALLBACK))
    {
      RowActionDone(DEACTIVATE_FAILED_FALLBACK, service, reload);
    }

    /**
     * `handleDelete`: without confirmation (`confirm()` answered "cancel")
     * nothing happens and the service is not called.
     */
    method HandleDelete(confirmed: bool, service: ServiceOutcome, reload: UsersOutcome) returns (deleteCalled: bool)
      modifies this`users, this`loading, this`error
      ensures deleteCalled <==> confirmed
      ensures !confirmed ==> users == old(users) && loading == old(loading) && error == old(error)
      ensures confirmed && service.Succeeded? && reload.Loaded? ==> users == reload.users && error == None && !loading
      ensures confirmed && service.Succeeded? && reload.LoadFailed? ==>
                users == old(users) && error == Some(OrElse(reload.detail, LOAD_USERS_FALLBACK)) && !loading
      ensures confirmed && service.Failed? ==>
                users == old(users) && loading == old(loading)
                && error == Some(OrElse(service.detail, DELETE_FAILED_FALLBACK))
    {
      if !confirmed {
        return false;
      }
      deleteCalled := true;
      RowActionDone(DELETE_FAILED_FALLBACK, service, reload);
    }
  }

  // ---------------------------------------------------------------------------
  // Properties across the page
  // ---------------------------------------------------------------------------

  /** Deactivating another user passes the edit checks when email and username are filled in. */
  lemma DeactivatingOthersPasses(form: UserUpdate, userId: int, currentUserId: int)
    requires form.email.Some? && form.username.Some?
    requires !Blank(form.email.value) && !Blank(form.username.value)
    requires userId != currentUserId
    ensures ValidateEdit(form, userId, currentUserId) == None
  {
  }

  /**
   * No path on the page lets an administrator lock themself out: their own
   * row offers neither "deactivate" nor "delete", and an edit of their own
   * account that asks for `is_active = false` is refused.
   */
  lemma NoSelfLockout(self: User, form: UserUpdate)
    requires form.isActive == Some(false)
    ensures Deactivate !in RowActions(self, self) && Delete !in RowActions(self, self)
    ensures ValidateEdit(form, self.id, self.id) != None
  {
  }

  /** The edit dialog, opened on any row, starts with a form that passes the self-deactivation check. */
  lemma InitialEditFormNeverSelfDeactivates(user: User, currentUser: User)
    requires user.isActive || user.id != currentUser.id
    ensures ValidateEdit(InitialEditForm(user), user.id, currentUser.id) != Some(SELF_DEACTIVATION_ERROR)
  {
  }
}
