/** The browser as the components see it: the profile kept in local storage
    under the key "userData", and a log of the effects the components cause
    (alerts, opened windows, navigation, microphone recording). */
module Platform {

  datatype Option<T> = None | Some(value: T)

  /** The registration form, which is also what is stored as "userData". */
  datatype Profile = Profile(
    name: string,
    email: string,
    password: string,
    contact1: string,
    contact2: string,
    contact3: string)

  datatype Effect =
    | Alert(message: string)
    | OpenWindow(url: string)
    | Navigate(path: string)
    | NavigateAfter(delayMs: nat, path: string)
    | StartRecording

  class Browser {
    /** `JSON.parse(localStorage.getItem("userData"))`: None when nothing is stored. */
    var userData: Option<Profile>
    /** Every effect so far, oldest first. */
    var log: seq<Effect>

    constructor (stored: Option<Profile>)
      ensures userData == stored && log == []
    {
      userData := stored;
      log := [];
    }
  }
}
