/** The sign-in session: the `Simpfun` object and its stages (log in, fetch
    the challenge image, derive the offset, submit it). Each stage is first
    stated as a function on a `SessionState` value; the class's methods update
    the object's fields in place and are proved to agree with those functions. */
module Session {
  import opened Wrappers
  import opened PixelSolver

  /** The fields of a `Simpfun` object that the stages read and write. */
  datatype SessionState = SessionState(
    username: string,
    password: string,
    sfUserdata: Option<string>,   // the `sf-userdata` auth cookie
    phpSessId: Option<string>,    // the per-challenge `PHPSESSID` cookie
    img: Option<Image>,
    code: Option<int>,
    verify: bool,
    result: Option<string>)

  /** What the challenge endpoint answered: its `PHPSESSID` cookie, and the
      decoded body, or None when the body does not decode as an image. */
  datatype ImageReply = ImageReply(sessId: Option<string>, picture: Option<Image>)

  /** The answers the three endpoints give during one cycle. */
  datatype Network = Network(
    login: Reply<Option<string>>,   // the `sf-userdata` cookie of the login response
    image: Reply<ImageReply>,
    check: Reply<string>)           // the body text of the verification response

  /** The state a stage leaves behind, and whether its undecorated body
      returned a value or raised. */
  datatype Step = Step(state: SessionState, ret: Reply<bool>) {
    /** The stage's value once `try_except` has caught any exception. */
    function Ok(): bool {
      TryExcept(ret)
    }
  }

  datatype Stage = Login | FetchImage | Solve | Submit

  datatype StageRun = StageRun(stage: Stage, ok: bool)

  /** The stages one call of `sign` ran, in order, with what each returned. */
  datatype CycleOutcome = CycleOutcome(after: SessionState, ok: bool, ran: seq<StageRun>)

  /** The body text the verification endpoint sends for a signed-in account. */
  predicate Accepted(text: string) {
    text != "" && text != "error"
  }

  /** A fresh object: no session cookie, image, offset or result yet. */
  function Initial(username: string, password: string, sfUserdata: Option<string>): (s: SessionState)
    ensures s.phpSessId == None && s.img == None && s.code == None && s.result == None && s.verify
    ensures s.username == username && s.password == password && s.sfUserdata == sfUserdata
    ensures Ordered(s)
  {
    SessionState(username, password, sfUserdata, None, None, None, true, None)
  }

  /** `_reset_var`: forgets the previous challenge; the credentials and the
      auth cookie survive. */
  function Reset(s: SessionState): (r: SessionState)
    ensures r.img == None && r.phpSessId == None && r.code == None && r.result == None && r.verify
    ensures r.username == s.username && r.password == s.password && r.sfUserdata == s.sfUserdata
  {
    s.(img := None, phpSessId := None, code := None, verify := true, result := None)
  }

  /** `login`: with both credentials present, stores whatever `sf-userdata`
      cookie the response carries (absent included) and succeeds iff it is
      non-empty. Nothing but the auth cookie changes. */
  function LoginStep(s: SessionState, reply: Reply<Option<string>>): (r: Step)
    ensures r.state == s.(sfUserdata := r.state.sfUserdata)
    ensures r.Ok() <==> s.username != "" && s.password != "" && reply.Returned? && Truthy(reply.value)
    ensures r.Ok() ==> r.state.sfUserdata == reply.value
    ensures s.username != "" && s.password != "" && reply.Returned? ==> r.state.sfUserdata == reply.value
    ensures s.username == "" || s.password == "" || reply.Raised? ==> r.state == s
  {
    if s.username == "" || s.password == "" then Step(s, Returned(false))
    else match reply
      case Raised => Step(s, Raised)
      case Returned(cookie) => Step(s.(sfUserdata := cookie), Returned(Truthy(cookie)))
  }

  /** `_get_img`: the guard on the auth cookie does not stop the stage, so its
      outcome depends on the response alone. The `PHPSESSID` cookie is stored
      before the body is decoded, so it is kept when decoding fails. */
  function FetchStep(s: SessionState, reply: Reply<ImageReply>): (r: Step)
    ensures r.state == s.(phpSessId := r.state.phpSessId, img := r.state.img)
    ensures r.Ok() <==> reply.Returned? && Truthy(reply.value.sessId) && reply.value.picture.Some?
    ensures r.Ok() ==> r.state.img == reply.value.picture && r.state.phpSessId == reply.value.sessId
    ensures !r.Ok() ==> r.state.img == s.img
    ensures reply.Returned? ==> r.state.phpSessId == reply.value.sessId
    ensures reply.Raised? ==> r.state == s
  {
    match reply
    case Raised => Step(s, Raised)
    case Returned(ir) =>
      var s1 := s.(phpSessId := ir.sessId);
      if !Truthy(ir.sessId) then Step(s1, Returned(false))
      else match ir.picture
        case None => Step(s1, Raised)
        case Some(p) => Step(s1.(img := Some(p)), Returned(true))
  }

  /** `_get_code`: fails without an image; fails (the source raises on
      `last[0]`) when the bands match everywhere; otherwise stores the offset. */
  function SolveStep(s: SessionState): (r: Step)
    ensures r.state == s.(code := r.state.code)
    ensures r.Ok() <==> s.img.Some? && exists c :: IsMismatch(s.img.value, c)
    ensures r.Ok() ==> r.state.code == Offset(s.img.value) && r.state.code.Some?
    ensures !r.Ok() ==> r.state == s
  {
    if s.img.None? then Step(s, Returned(false))
    else
      NoMismatchNoOffset(s.img.value);
      match Offset(s.img.value)
      case None => Step(s, Raised)
      case Some(k) => Step(s.(code := Some(k)), Returned(true))
  }

  /** `_sign`: stores the response text verbatim, on failure too, and
      succeeds iff it is non-empty and not `error`. */
  function SubmitStep(s: SessionState, reply: Reply<string>): (r: Step)
    ensures r.state == s.(result := r.state.result)
    ensures r.Ok() <==> reply.Returned? && Accepted(reply.value)
    ensures r.state.result == if reply.Returned? then Some(reply.value) else s.result
  {
    match reply
    case Raised => Step(s, Raised)
    case Returned(text) => Step(s.(result := Some(text)), Returned(Accepted(text)))
  }

  /** `sign`: log in only when there is no auth cookie, reset, then fetch,
      solve and submit, stopping at the first stage that fails. */
  function Cycle(s: SessionState, net: Network): (o: CycleOutcome)
    ensures o.ok ==> Truthy(o.after.sfUserdata) && o.after.code.Some? && o.after.result.Some? && Accepted(o.after.result.value)
    ensures Truthy(s.sfUserdata) ==> o.after.sfUserdata == s.sfUserdata
    ensures o.after.username == s.username && o.after.password == s.password
  {
    if !Truthy(s.sfUserdata) then
      var l := LoginStep(s, net.login);
      if !l.Ok() then CycleOutcome(l.state, false, [StageRun(Login, false)])
      else AfterLogin(l.state, net, [StageRun(Login, true)])
    else AfterLogin(s, net, [])
  }

  /** The reset and the fetch, solve and submit stages of `sign`, run after
      the stages already in `ran`. */
  function AfterLogin(s: SessionState, net: Network, ran: seq<StageRun>): (o: CycleOutcome)
    ensures o.ok ==> o.after.code.Some? && o.after.result.Some? && Accepted(o.after.result.value)
    ensures o.after.sfUserdata == s.sfUserdata && o.after.username == s.username && o.after.password == s.password
  {
    var f := FetchStep(Reset(s), net.image);
    if !f.Ok() then CycleOutcome(f.state, false, ran + [StageRun(FetchImage, false)])
    else
      var c := SolveStep(f.state);
      if !c.Ok() then CycleOutcome(c.state, false, ran + [StageRun(FetchImage, true), StageRun(Solve, false)])
      else
        var k := SubmitStep(c.state, net.check);
        CycleOutcome(k.state, k.Ok(), ran + [StageRun(FetchImage, true), StageRun(Solve, true), StageRun(Submit, k.Ok())])
  }

  /** The stages `sign` would run if none failed. */
  function Pipeline(s: SessionState): seq<Stage> {
    (if Truthy(s.sfUserdata) then [] else [Login]) + [FetchImage, Solve, Submit]
  }

  /** The stage of each run, in order. */
  function Stages(ran: seq<StageRun>): seq<Stage> {
    seq(|ran|, i requires 0 <= i < |ran| => ran[i].stage)
  }

  /** The stages in `o.ran` are a non-empty prefix of `pipeline`, in order;
      every stage but the last succeeded; the outcome is what the last one
      returned, and it is a success only when the whole pipeline ran. */
  ghost predicate RunsPrefix(pipeline: seq<Stage>, o: CycleOutcome) {
    && 1 <= |o.ran| <= |pipeline|
    && Stages(o.ran) == pipeline[..|o.ran|]
    && (forall i :: 0 <= i < |o.ran| - 1 ==> o.ran[i].ok)
    && o.ok == o.ran[|o.ran| - 1].ok
    && (o.ok ==> Stages(o.ran) == pipeline)
  }

  /** `sign` short-circuits: it runs a prefix of its pipeline, stops at the
      first stage that fails and returns that stage's result. */
  lemma CycleShortCircuits(s: SessionState, net: Network)
    ensures RunsPrefix(Pipeline(s), Cycle(s, net))
  {
    var rest := [FetchImage, Solve, Submit];
    if Truthy(s.sfUserdata) {
      AfterLoginRuns(s, net, []);
      assert Stages([]) + rest == Pipeline(s);
    } else if !LoginStep(s, net.login).Ok() {
      assert Stages(Cycle(s, net).ran) == [Login];
    } else {
      var pre := [StageRun(Login, true)];
      AfterLoginRuns(LoginStep(s, net.login).state, net, pre);
      assert Stages(pre) + rest == Pipeline(s);
    }
  }

  /** After stages that all succeeded, `sign` runs a non-empty prefix of
      fetch, solve and submit, stopping at the first that fails. */
  lemma AfterLoginRuns(s: SessionState, net: Network, pre: seq<StageRun>)
    requires forall i :: 0 <= i < |pre| ==> pre[i].ok
    ensures RunsPrefix(Stages(pre) + [FetchImage, Solve, Submit], AfterLogin(s, net, pre))
  {
    var o := AfterLogin(s, net, pre);
    var rest := [FetchImage, Solve, Submit];
    var f := FetchStep(Reset(s), net.image);
    var tail: seq<StageRun>;
    if !f.Ok() {
      tail := [StageRun(FetchImage, false)];
      assert Stages(tail) == [FetchImage];
    } else if !SolveStep(f.state).Ok() {
      tail := [StageRun(FetchImage, true), StageRun(Solve, false)];
      assert Stages(tail) == [FetchImage, Solve];
    } else {
      tail := [StageRun(FetchImage, true), StageRun(Solve, true), StageRun(Submit, o.ok)];
      assert Stages(tail) == [FetchImage, Solve, Submit];
    }
    assert o.ran == pre + tail;
    StagesConcat(pre, tail);
    assert (Stages(pre) + rest)[..|pre| + |tail|] == Stages(pre) + rest[..|tail|];
  }

  lemma StagesConcat(a: seq<StageRun>, b: seq<StageRun>)
    ensures Stages(a + b) == Stages(a) + Stages(b)
  {
  }

  /** A cycle that signs in has stored the accepted response text, the offset
      of the fetched image, and holds an auth cookie. */
  lemma SignedCycle(s: SessionState, net: Network)
    requires Cycle(s, net).ok
    ensures var a := Cycle(s, net).after;
      && Truthy(a.sfUserdata)
      && net.image.Returned? && a.img == net.image.value.picture && a.img.Some?
      && a.phpSessId == net.image.value.sessId && Truthy(a.phpSessId)
      && a.code.Some? && a.code == Offset(a.img.value)
      && net.check.Returned? && a.result == Some(net.check.value) && Accepted(net.check.value)
  {
  }

  /** What each way of failing leaves behind. A failed login returns before
      the reset, so it changes none of the other fields (which are empty in
      every state the object reaches, see `FailedLoginLeavesNothing`). A
      failed fetch or solve leaves no offset and no result. A failed submit
      has still stored the response text. */
  lemma CycleFailures(s: SessionState, net: Network)
    ensures var o := Cycle(s, net);
      && (o.ran == [StageRun(Login, false)] ==>
            o.after.img == s.img && o.after.code == s.code && o.after.result == s.result
            && o.after.phpSessId == s.phpSessId)
      && (!o.ok && o.ran[|o.ran| - 1].stage == FetchImage ==>
            o.after.img == None && o.after.code == None && o.after.result == None)
      && (!o.ok && o.ran[|o.ran| - 1].stage == Solve ==>
            o.after.img.Some? && Offset(o.after.img.value) == None && o.after.code == None && o.after.result == None)
      && (!o.ok && o.ran[|o.ran| - 1].stage == Submit && net.check.Returned? ==>
            o.after.result == Some(net.check.value) && o.after.code.Some?)
  {
    CycleShortCircuits(s, net);
  }

  /** The auth cookie survives the reset: after a cycle that signed in, the
      next cycle does not log in again. */
  lemma LoginNotRepeated(s: SessionState, net: Network, next: Network)
    requires Cycle(s, net).ok
    ensures Login !in Stages(Cycle(Cycle(s, net).after, next).ran)
  {
    LoginSkipped(Cycle(s, net).after, next);
  }

  /** With an auth cookie, `sign` does not log in. */
  lemma LoginSkipped(s: SessionState, net: Network)
    requires Truthy(s.sfUserdata)
    ensures Login !in Stages(Cycle(s, net).ran)
  {
    var o := Cycle(s, net);
    CycleShortCircuits(s, net);
    assert Pipeline(s) == [FetchImage, Solve, Submit];
    assert Stages(o.ran) == [FetchImage, Solve, Submit][..|o.ran|];
  }

  /** The ordering of the state: a session cookie or an image is only held
      with an auth cookie, an offset only with an image, a result only with
      an offset. */
  predicate Ordered(s: SessionState) {
    && (s.phpSessId.Some? ==> Truthy(s.sfUserdata))
    && (s.img.Some? ==> Truthy(s.sfUserdata))
    && (s.code.Some? ==> s.img.Some?)
    && (s.result.Some? ==> s.code.Some?)
  }

  lemma CycleKeepsOrdered(s: SessionState, net: Network)
    requires Ordered(s)
    ensures Ordered(Cycle(s, net).after)
  {
  }

  /** The state after `sign` has run once for each response set in `nets`,
      in order, as the `while True` loop calls it. */
  function Run(s: SessionState, nets: seq<Network>): SessionState
    decreases |nets|
  {
    if nets == [] then s else Run(Cycle(s, nets[0]).after, nets[1..])
  }

  /** Every state the object reaches from its constructor is ordered. */
  lemma {:induction false} RunKeepsOrdered(s: SessionState, nets: seq<Network>)
    requires Ordered(s)
    ensures Ordered(Run(s, nets))
    decreases |nets|
  {
    if nets != [] {
      CycleKeepsOrdered(s, nets[0]);
      RunKeepsOrdered(Cycle(s, nets[0]).after, nets[1..]);
    }
  }

  /** Login runs only while no auth cookie is held, and no cycle clears a
      stored one; so in an ordered state a failed login finds no session
      cookie, image, offset or result, and leaves none. */
  lemma FailedLoginLeavesNothing(s: SessionState, net: Network)
    requires Ordered(s)
    requires Cycle(s, net).ran == [StageRun(Login, false)]
    ensures s.phpSessId == None && s.img == None && s.code == None && s.result == None
    ensures var a := Cycle(s, net).after;
      a.phpSessId == None && a.img == None && a.code == None && a.result == None
  {
    assert Stages(Cycle(s, net).ran)[0] == Login;
    if Truthy(s.sfUserdata) {
      LoginSkipped(s, net);
      assert false;
    }
  }

  /** From a new object, whatever the earlier cycles did, a failed login
      leaves no session cookie, image, offset or result. */
  lemma FailedLoginAfterRun(username: string, password: string, sfUserdata: Option<string>,
                            nets: seq<Network>, net: Network)
    requires Cycle(Run(Initial(username, password, sfUserdata), nets), net).ran == [StageRun(Login, false)]
    ensures var a := Cycle(Run(Initial(username, password, sfUserdata), nets), net).after;
      a.phpSessId == None && a.img == None && a.code == None && a.result == None
  {
    var s := Run(Initial(username, password, sfUserdata), nets);
    RunKeepsOrdered(Initial(username, password, sfUserdata), nets);
    FailedLoginLeavesNothing(s, net);
  }

  /** The `Simpfun` object. */
  class Simpfun {
    var username: string
    var password: string
    var sfUserdata: Option<string>
    var phpSessId: Option<string>
    var img: Option<Image>
    var code: Option<int>
    var verify: bool
    var result: Option<string>

    function State(): SessionState
      reads this
    {
      SessionState(username, password, sfUserdata, phpSessId, img, code, verify, result)
    }

    constructor (username: string, password: string, sfUserdata: Option<string>)
      ensures State() == Initial(username, password, sfUserdata)
      ensures Ordered(State())
    {
      this.username := username;
      this.password := password;
      this.sfUserdata := sfUserdata;
      img := None;
      phpSessId := None;
      code := None;
      verify := true;
      result := None;
    }

    method ResetVar()
      modifies this
      ensures State() == Reset(old(State()))
    {
      img := None;
      phpSessId := None;
      code := None;
      verify := true;
      result := None;
    }

    method Login(reply: Reply<Option<string>>) returns (ok: bool)
      modifies this
      ensures State() == LoginStep(old(State()), reply).state
      ensures ok == LoginStep(old(State()), reply).Ok()
    {
      if username == "" || password == "" {
        return false;
      }
      match reply {
        case Raised =>
          ok := TryExcept(Raised);
        case Returned(cookie) =>
          sfUserdata := cookie;
          ok := Truthy(sfUserdata);
      }
    }

    method GetImg(reply: Reply<ImageReply>) returns (ok: bool)
      modifies this
      ensures State() == FetchStep(old(State()), reply).state
      ensures ok == FetchStep(old(State()), reply).Ok()
    {
      // the guard on a missing auth cookie calls a destructor that returns
      // False without stopping the stage
      match reply {
        case Raised =>
          ok := TryExcept(Raised);
        case Returned(ir) =>
          phpSessId := ir.sessId;
          if !Truthy(phpSessId) {
            return false;
          }
          match ir.picture {
            case None =>
              ok := TryExcept(Raised);
            case Some(p) =>
              img := Some(p);
              ok := true;
          }
      }
    }

    method GetCode() returns (ok: bool)
      modifies this
      ensures State() == SolveStep(old(State())).state
      ensures ok == SolveStep(old(State())).Ok()
    {
      if img.None? {
        return false;
      }
      var first, last := ScanBands(img.value);
      match last {
        case None =>
          // `last` is still the integer 0 and `last[0]` raises
          ok := TryExcept(Raised);
        case Some(c) =>
          code := Some(c.x - Calibration);
          ok := true;
      }
    }

    method SubmitCode(reply: Reply<string>) returns (ok: bool)
      modifies this
      ensures State() == SubmitStep(old(State()), reply).state
      ensures ok == SubmitStep(old(State()), reply).Ok()
    {
      // the guard on missing cookies does not stop the stage either
      match reply {
        case Raised =>
          ok := TryExcept(Raised);
        case Returned(text) =>
          result := Some(text);
          ok := result.value != "" && result.value != "error";
      }
    }

    method Sign(net: Network) returns (ok: bool)
      modifies this
      ensures State() == Cycle(old(State()), net).after
      ensures ok == Cycle(old(State()), net).ok
    {
      if !Truthy(sfUserdata) {
        ok := Login(net.login);
        if !ok {
          return false;
        }
      }
      ResetVar();
      ok := GetImg(net.image);
      if !ok {
        return false;
      }
      ok := GetCode();
      if !ok {
        return false;
      }
      ok := SubmitCode(net.check);
    }
  }
}
