/** The two mutexes of a typed configuration (nacosx): the value's, held by Watch from start to end and by every
    delivery to it, and the watch's, held by follow, by unfollow and around every delivery. One call of Watch, and the
    listener with any number of pushes. */
module WatchLocks {
  /** Watch: takes the value's mutex, then the watch's to follow; loads; on an error takes the watch's to unfollow. */
  datatype Watcher = Start | Holding | Following | Followed | WantsOut | Leaving | Loaded | Failed

  /** A push: takes the watch's mutex, then for a registered subscriber the value's. */
  datatype Pusher = Idle | Applying | Delivering | Delivered

  datatype State = State(watcher: Watcher, pusher: Pusher)

  predicate ValueTaken(s: State) {
    s.watcher in {Holding, Following, Followed, WantsOut, Leaving} || s.pusher.Delivering?
  }

  predicate WatchTaken(s: State) { s.watcher in {Following, Leaving} || !s.pusher.Idle? }

  predicate Registered(s: State) { s.watcher in {Followed, WantsOut, Loaded} }

  /** good: the content decodes and is valid. */
  predicate WatcherSteps(s: State, good: bool, s': State) {
    && s'.pusher == s.pusher
    && match s.watcher
       case Start => !ValueTaken(s) && s'.watcher == Holding
       case Holding => !WatchTaken(s) && s'.watcher == Following
       case Following => s'.watcher == Followed
       case Followed => s'.watcher == if good then Loaded else WantsOut
       case WantsOut => !WatchTaken(s) && s'.watcher == Leaving
       case Leaving => s'.watcher == Failed
       case _ => false
  }

  predicate PusherSteps(s: State, s': State) {
    && s'.watcher == s.watcher
    && match s.pusher
       case Idle => !WatchTaken(s) && s'.pusher == Applying
       case Applying => if Registered(s) then !ValueTaken(s) && s'.pusher == Delivering else s'.pusher == Idle
       case Delivering => s'.pusher == Delivered
       case Delivered => s'.pusher == Idle
  }

  ghost predicate IsRun(good: bool, ss: seq<State>) {
    && ss != [] && ss[0] == State(Start, Idle)
    && forall i :: 0 <= i < |ss| - 1 ==> WatcherSteps(ss[i], good, ss[i + 1]) || PusherSteps(ss[i], ss[i + 1])
  }

  ghost predicate Inv(good: bool, s: State) {
    && !(s.watcher in {Following, Leaving} && !s.pusher.Idle?)
    && !(s.watcher in {Holding, Following, Followed, WantsOut, Leaving} && s.pusher.Delivering?)
    && (good ==> !(s.watcher in {WantsOut, Leaving, Failed}))
    && (s.pusher in {Delivering, Delivered} ==> s.watcher == Loaded)
  }

  lemma StepKeeps(good: bool, s: State, s': State)
    requires Inv(good, s) && (WatcherSteps(s, good, s') || PusherSteps(s, s'))
    ensures Inv(good, s')
  {
  }

  lemma {:induction false} InvAlong(good: bool, ss: seq<State>, i: nat)
    requires IsRun(good, ss) && i < |ss|
    ensures Inv(good, ss[i])
  {
    if i > 0 {
      InvAlong(good, ss, i - 1);
      StepKeeps(good, ss[i - 1], ss[i]);
    }
  }

  /** Neither holds a mutex the other one holds. */
  lemma MutexesExclude(good: bool, ss: seq<State>, i: nat)
    requires IsRun(good, ss) && i < |ss|
    ensures !(ss[i].watcher in {Following, Leaving} && ss[i].pusher != Idle)
    ensures !(ss[i].watcher in {Holding, Following, Followed, WantsOut, Leaving} && ss[i].pusher == Delivering)
  {
    InvAlong(good, ss, i);
  }

  ghost predicate Stuck(good: bool, s: State) { forall s' :: !WatcherSteps(s, good, s') && !PusherSteps(s, s') }

  /** The two wait for each other exactly when a push came between a failed load and the unfollow. */
  lemma StuckIff(good: bool, ss: seq<State>, i: nat)
    requires IsRun(good, ss) && i < |ss|
    ensures Stuck(good, ss[i]) <==> ss[i] == State(WantsOut, Applying)
  {
    InvAlong(good, ss, i);
    var s := ss[i];
    if s != State(WantsOut, Applying) {
      var s' := MoveOf(good, s);
      assert WatcherSteps(s, good, s') || PusherSteps(s, s');
    }
  }

  lemma MoveOf(good: bool, s: State) returns (s': State)
    requires Inv(good, s) && s != State(WantsOut, Applying)
    ensures WatcherSteps(s, good, s') || PusherSteps(s, s')
  {
    match s.pusher
    case Delivering => s' := s.(pusher := Delivered);
    case Delivered => s' := s.(pusher := Idle);
    case Applying =>
      s' := if !Registered(s) then s.(pusher := Idle)
            else if s.watcher.Followed? then s.(watcher := if good then Loaded else WantsOut)
            else s.(pusher := Delivering);
    case Idle =>
      match s.watcher
      case Start => s' := s.(watcher := Holding);
      case Holding => s' := s.(watcher := Following);
      case Following => s' := s.(watcher := Followed);
      case Followed => s' := s.(watcher := if good then Loaded else WantsOut);
      case WantsOut => s' := s.(watcher := Leaving);
      case Leaving => s' := s.(watcher := Failed);
      case _ => s' := s.(pusher := Applying);
  }

  /** With a good content nobody ever gets stuck. */
  lemma GoodContentNeverBlocks(ss: seq<State>, i: nat)
    requires IsRun(true, ss) && i < |ss|
    ensures !Stuck(true, ss[i])
  {
    StuckIff(true, ss, i);
    InvAlong(true, ss, i);
  }

  /** With a bad one they can: Watch holds the value's mutex and wants the watch's, the listener the other way round. */
  lemma BadContentCanBlock() returns (ss: seq<State>)
    ensures IsRun(false, ss) && Stuck(false, ss[|ss| - 1])
  {
    ss := [State(Start, Idle), State(Holding, Idle), State(Following, Idle), State(Followed, Idle),
           State(WantsOut, Idle), State(WantsOut, Applying)];
    StuckIff(false, ss, 5);
  }
}
