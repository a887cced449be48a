/**
 * The `Session` record of src/client/session.rs: the session id given by the
 * gateway's Ready event and the flag saying whether the session may be
 * resumed.  The id sits behind a mutex and the flag is atomic in the source;
 * here both are plain fields.
 */
module Session {

  class Session {
    /** The token the REST client authenticates with (the HTTP client itself is not modelled). */
    const httpToken: string
    var id: string
    var resumable: bool

    /** `Session::new`: no id yet, and resuming is allowed. */
    constructor (token: string)
      ensures httpToken == token
      ensures id == "" && resumable
    {
      httpToken := token;
      id := "";
      resumable := true;
    }

    /** `set_resumable`: stores the flag and leaves the id alone. */
    method SetResumable(b: bool)
      modifies this`resumable
      ensures resumable == b && id == old(id)
    {
      resumable := b;
    }

    /** `is_resumable`: the last flag stored. */
    method IsResumable() returns (b: bool)
      ensures b == resumable
    {
      b := resumable;
    }

    /** `set_id`: stores the id and leaves the flag alone. */
    method SetId(s: string)
      modifies this`id
      ensures id == s && resumable == old(resumable)
    {
      id := s;
    }

    /** `id`: a copy of the last id stored. */
    method Id() returns (s: string)
      ensures s == id
    {
      s := id;
    }
  }

  /** A value stored with a setter is what the matching getter returns next. */
  method SettersRoundTrip(session: Session, id: string, b: bool) returns (gotId: string, gotFlag: bool)
    modifies session
    ensures gotId == id && gotFlag == b
  {
    session.SetId(id);
    session.SetResumable(b);
    gotId := session.Id();
    gotFlag := session.IsResumable();
  }
}
