/** The scripted collaborators the session use case is tested against
    (tests/unit/_fakes_auth.py): a store with the same contract as the in-memory one, a
    provider that hands out a fixed token/sign and counts its calls, and a consumer whose
    first probe answers `valid_first` and every later probe answers true. */
module AuthFakes {
  import opened Wrappers
  import opened SessionStore

  class FakeStore {
    var cookies: map<string, string>
    var exp: Option<int>
    var active: bool

    function State(): SessionRecord
      reads this
    {
      SessionRecord(cookies, exp, active)
    }

    constructor ()
      ensures State() == Fresh()
    {
      cookies := map[];
      exp := None;
      active := false;
    }

    method Load() returns (c: map<string, string>, e: Option<int>, a: bool)
      ensures SessionRecord(c, e, a) == State()
    {
      c, e, a := cookies, exp, active;
    }

    method Save(c: map<string, string>, e: int)
      modifies this
      ensures State() == Saved(old(State()), c, e)
    {
      cookies := c;
      exp := Some(e);
      active := true;
    }

    method MarkInactive()
      modifies this
      ensures State() == Inactive(old(State()))
    {
      active := false;
    }
  }

  class FakeProvider {
    const token: string
    const sign: string
    var called: nat

    constructor (token: string := "tok", sign: string := "sig")
      ensures this.token == token && this.sign == sign && called == 0
    {
      this.token := token;
      this.sign := sign;
      called := 0;
    }

    method GetTokenSign() returns (t: string, s: string)
      modifies this
      ensures (t, s) == (token, sign) && called == old(called) + 1
    {
      called := called + 1;
      t, s := token, sign;
    }
  }

  class FakeConsumer {
    const validFirst: bool
    var cookies: map<string, string>
    var validated: bool

    constructor (validFirst: bool := true)
      ensures this.validFirst == validFirst && cookies == map["cookie" := "value"] && !validated
    {
      this.validFirst := validFirst;
      cookies := map["cookie" := "value"];
      validated := false;
    }

    method ValidateSession() returns (ok: bool)
      modifies this
      ensures ok == (if old(validated) then true else validFirst)
      ensures validated && cookies == old(cookies)
    {
      if !validated {
        validated := true;
        return validFirst;
      }
      ok := true;
    }

    method LoginWithTokenSign(token: string, sign: string)
      modifies this
      ensures cookies == map["session" := "abc"] && validated == old(validated)
    {
      cookies := map["session" := "abc"];
    }
  }
}
