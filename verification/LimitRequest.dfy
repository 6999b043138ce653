/**
 Assumed contract of `core::limit::Request`, one slot of the object that the two actors of an
 account share. The class itself is not part of the repository; the contract is what its call
 sites rely on.
 */
module LimitRequest {

  datatype Slot = Slot(wanted: bool, response: bool) {

    /** `request()`: ask for a new answer and forget an old one. */
    function Request(): Slot {
      Slot(true, false)
    }

    /** `check_pending()`: the callback runs at most once per request, when the limiter allows it. */
    predicate Fires(allowed: bool) {
      wanted && allowed
    }

    function CheckPending(allowed: bool): Slot {
      if Fires(allowed) then this.(wanted := false) else this
    }

    /** `commit()`: an answer has arrived. */
    function Commit(): Slot {
      this.(response := true)
    }

    /** `has_response()` returns `response` and leaves the slot in this state. */
    function Consume(): Slot {
      this.(response := false)
    }
  }

  const EMPTY_SLOT := Slot(false, false)
}
