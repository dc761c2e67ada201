/**
 * The "Database Actions" card (Components/Cards/DatabaseActions.tsx): three
 * buttons pick a reset, a password dialog confirms it, and the server's
 * answer is shown as a message. (The card is not mounted anywhere: its use
 * in Pages/Setting.jsx is commented out.)
 */
module DatabaseActions {
  import opened Js

  /** The password the dialog compares against. */
  const Password: string := "_password"

  /** The reset each action runs, by its endpoint below the API base. */
  function Endpoint(action: string): (e: Option<string>)
    ensures e.Some? <==> action in {"partial", "reservations", "reset"}
    ensures e == Some("/partial-reset-database") <==> action == "partial"
    ensures e == Some("/reset-reservation-data") <==> action == "reservations"
    ensures e == Some("/reset-database") <==> action == "reset"
  {
    if action == "partial" then Some("/partial-reset-database")
    else if action == "reservations" then Some("/reset-reservation-data")
    else if action == "reset" then Some("/reset-database")
    else None
  }

  /** A `POST` the card sends: `<base><endpoint>?userId=<userId>`. */
  datatype ResetRequest = ResetRequest(endpoint: string, userId: string)

  /** How one reset's `fetch` settled. */
  datatype Settled = Responded(text: string) | Failed

  /** The dialog title for the recorded action. */
  function Title(action: Option<string>): (title: string)
    ensures action == Some("partial") ==> title == "Partial Reset Database"
    ensures action == Some("reservations") ==> title == "Reset Sales Data"
    ensures action != Some("partial") && action != Some("reservations") ==> title == "Reset Database"
  {
    if action == Some("partial") then "Partial Reset Database"
    else if action == Some("reservations") then "Reset Sales Data"
    else "Reset Database"
  }

  class DatabaseActionsCard {
    var passwordDialogOpen: bool
    var passwordInput: string
    var action: Option<string>
    var message: string

    constructor ()
      ensures !passwordDialogOpen && passwordInput == "" && action == None && message == ""
    {
      passwordDialogOpen := false;
      passwordInput := "";
      action := None;
      message := "";
    }

    /** `handlePasswordDialogOpen(a)`: record the action and open the dialog. */
    method OpenDialog(a: string)
      modifies this
      ensures action == Some(a) && passwordDialogOpen
      ensures passwordInput == old(passwordInput) && message == old(message)
    {
      action := Some(a);
      passwordDialogOpen := true;
    }

    /** The password field's `onChange`. */
    method TypePassword(text: string)
      modifies this
      ensures passwordInput == text
      ensures passwordDialogOpen == old(passwordDialogOpen) && action == old(action) && message == old(message)
    {
      passwordInput := text;
    }

    /** `handlePasswordDialogClose` (Cancel, or a click outside): close and run nothing. */
    method CloseDialog()
      modifies this
      ensures !passwordDialogOpen
      ensures passwordInput == old(passwordInput) && action == old(action) && message == old(message)
    {
      passwordDialogOpen := false;
    }

    /**
     * `handleConfirmAction`: with the right password, start the reset that
     * matches the recorded action; in every case close the dialog.
     */
    method Confirm(userId: Value) returns (sent: Option<ResetRequest>)
      modifies this
      ensures sent.Some? <==> passwordInput == Password && action.Some? && Endpoint(action.value).Some?
      ensures sent.Some? ==> sent.value == ResetRequest(Endpoint(action.value).value, Render(userId))
      ensures !passwordDialogOpen
      ensures passwordInput == old(passwordInput) && action == old(action) && message == old(message)
    {
      sent := None;
      if action == Some("partial") && passwordInput == Password {
        sent := Some(ResetRequest("/partial-reset-database", Render(userId)));
      } else if action == Some("reservations") && passwordInput == Password {
        sent := Some(ResetRequest("/reset-reservation-data", Render(userId)));
      } else if action == Some("reset") && passwordInput == Password {
        sent := Some(ResetRequest("/reset-database", Render(userId)));
      }
      passwordDialogOpen := false;
    }

    /** A reset settles: the response text, or the fixed error message. */
    method OnSettled(result: Settled)
      modifies this
      ensures result.Responded? ==> message == result.text
      ensures result.Failed? ==> message == "Error resetting the database"
      ensures passwordDialogOpen == old(passwordDialogOpen) && passwordInput == old(passwordInput) && action == old(action)
    {
      match result
      case Responded(text) => message := text;
      case Failed => message := "Error resetting the database";
    }
  }

  /**
   * From a fresh card: pick `a`, type `typed`, confirm. A reset is sent
   * only with the right password, and it is the one the button chose.
   */
  method PickTypeConfirm(a: string, typed: string, userId: Value) returns (sent: Option<ResetRequest>, open: bool, title: string)
    ensures sent.Some? <==> typed == Password && Endpoint(a).Some?
    ensures sent.Some? ==> sent.value.endpoint == Endpoint(a).value
    ensures !open
    ensures title == Title(Some(a))
  {
    var card := new DatabaseActionsCard();
    card.OpenDialog(a);
    title := Title(card.action);
    card.TypePassword(typed);
    sent := card.Confirm(userId);
    open := card.passwordDialogOpen;
  }

  /**
   * The password stays in the field after the dialog closes, so a second
   * action is confirmed without typing it again.
   */
  method ConfirmTwice(first: string, second: string, userId: Value) returns (sent: Option<ResetRequest>)
    requires Endpoint(second).Some?
    ensures sent == Some(ResetRequest(Endpoint(second).value, Render(userId)))
  {
    var card := new DatabaseActionsCard();
    card.OpenDialog(first);
    card.TypePassword(Password);
    var _ := card.Confirm(userId);
    card.OpenDialog(second);
    sent := card.Confirm(userId);
  }
}
