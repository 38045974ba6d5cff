/** Channel interest, EPollPoller's book-keeping and the kernel's interest set as values. `C` is the
    identity of a channel (a pointer in the program). Classes `Channel` and `EPollPoller` are proved
    against these functions. */
module Registries {
  import opened Masks

  datatype Chan = Chan(fd: int, events: Events, index: Index)

  datatype Interest<C> = Interest(chan: C, events: Events)

  datatype CtlOp = CtlAdd | CtlMod | CtlDel

  /** Three representations of one fact: each channel's own index, the poller's fd map and the
      kernel's set. `fatal` is set by the first epoll_ctl call that the kernel refuses, after
      which the program has exited. */
  datatype Registry<C> = Registry(
    chans: map<C, Chan>, channels: map<int, C>, kernel: map<int, Interest<C>>, fatal: bool)

  function Empty<C>(): Registry<C> { Registry(map[], map[], map[], false) }

  function SetIndex<C>(r: Registry<C>, c: C, index: Index): Registry<C>
    requires c in r.chans
  {
    r.(chans := r.chans[c := r.chans[c].(index := index)])
  }

  /** epoll_ctl: ADD needs an absent fd, MOD and DEL a present one. */
  function Ctl<C>(r: Registry<C>, op: CtlOp, c: C): Registry<C>
    requires c in r.chans
  {
    var fd := r.chans[c].fd;
    if (op == CtlAdd) == (fd in r.kernel) then r.(fatal := true)
    else if op == CtlDel then r.(kernel := r.kernel - {fd})
    else r.(kernel := r.kernel[fd := Interest(c, r.chans[c].events)])
  }

  function UpdateChannel<C>(r: Registry<C>, c: C): Registry<C>
    requires c in r.chans
  {
    var ch := r.chans[c];
    if ch.index != Added then
      var known := if ch.index == New then r.(channels := r.channels[ch.fd := c]) else r;
      Ctl(SetIndex(known, c, Added), CtlAdd, c)
    else if ch.events.IsNone() then
      SetIndex(Ctl(r, CtlDel, c), c, Deleted)
    else
      Ctl(r, CtlMod, c)
  }

  /** Every setter of Channel.h: change the mask, then tell the poller. */
  function SetEvents<C>(r: Registry<C>, c: C, events: Events): Registry<C>
    requires c in r.chans
  {
    UpdateChannel(r.(chans := r.chans[c := r.chans[c].(events := events)]), c)
  }

  function RemoveChannel<C>(r: Registry<C>, c: C): Registry<C>
    requires c in r.chans
  {
    var ch := r.chans[c];
    var gone := r.(channels := r.channels - {ch.fd});
    SetIndex(if ch.index == Added then Ctl(gone, CtlDel, c) else gone, c, New)
  }

  predicate HasChannel<C(==)>(r: Registry<C>, c: C)
    requires c in r.chans
  {
    r.chans[c].fd in r.channels && r.channels[r.chans[c].fd] == c
  }

  // ----- The invariant

  ghost predicate DistinctFds<C>(r: Registry<C>) {
    forall c, d :: c in r.chans && d in r.chans && c != d ==> r.chans[c].fd != r.chans[d].fd
  }

  /** The three representations agree on channel `c`. */
  ghost predicate Agrees<C>(r: Registry<C>, c: C)
    requires c in r.chans
  {
    var ch := r.chans[c];
    && (ch.index == Added <==> ch.fd in r.kernel && r.kernel[ch.fd] == Interest(c, ch.events))
    && (ch.index != New <==> HasChannel(r, c))
    && (ch.index == Deleted ==> ch.events.IsNone())
  }

  ghost predicate Inv<C>(r: Registry<C>) {
    && !r.fatal
    && DistinctFds(r)
    && (forall c :: c in r.chans ==> Agrees(r, c))
    && (forall fd :: fd in r.kernel ==>
          r.kernel[fd].chan in r.chans && r.chans[r.kernel[fd].chan].fd == fd
          && r.chans[r.kernel[fd].chan].index == Added)
    && (forall fd :: fd in r.channels ==>
          r.channels[fd] in r.chans && r.chans[r.channels[fd]].fd == fd
          && r.chans[r.channels[fd]].index != New)
  }

  ghost predicate Changed<C>(r: Registry<C>, s: Registry<C>, c: C, events: Events)
    requires c in r.chans
  {
    var fd, index := r.chans[c].fd, NextIndex(r.chans[c].index, events);
    && s.fatal == r.fatal
    && s.chans == r.chans[c := Chan(fd, events, index)]
    && s.channels == r.channels[fd := c]
    && s.kernel == if index == Added then r.kernel[fd := Interest(c, events)] else r.kernel - {fd}
  }

  lemma SetEventsEffect<C>(r: Registry<C>, c: C, events: Events)
    requires Inv(r) && c in r.chans
    ensures var s := SetEvents(r, c, events); Changed(r, s, c, events)
  {
    assert Agrees(r, c);
  }

  lemma ChangedKeepsInv<C>(r: Registry<C>, s: Registry<C>, c: C, events: Events)
    requires Inv(r) && c in r.chans && Changed(r, s, c, events)
    ensures Inv(s)
  {
    var fd := r.chans[c].fd;
    forall d | d in s.chans && d != c
      ensures Agrees(s, d)
    {
      assert Agrees(r, d) && r.chans[d].fd != fd;
    }
    assert Agrees(r, c);
    assert Agrees(s, c);
  }

  /** Setting any mask on any channel is a legal sequence of epoll_ctl calls and keeps agreement. */
  lemma SetEventsKeepsInv<C>(r: Registry<C>, c: C, events: Events)
    requires Inv(r) && c in r.chans
    ensures var s := SetEvents(r, c, events);
      && Inv(s)
      && s.chans == r.chans[c := Chan(r.chans[c].fd, events, NextIndex(r.chans[c].index, events))]
  {
    SetEventsEffect(r, c, events);
    ChangedKeepsInv(r, SetEvents(r, c, events), c, events);
  }

  lemma RemoveKeepsInv<C>(r: Registry<C>, c: C)
    requires Inv(r) && c in r.chans
    ensures var s := RemoveChannel(r, c);
      && Inv(s)
      && s.chans == r.chans[c := r.chans[c].(index := New)]
      && r.chans[c].fd !in s.kernel && r.chans[c].fd !in s.channels
  {
    var s := RemoveChannel(r, c);
    var fd := r.chans[c].fd;
    forall d | d in s.chans && d != c
      ensures Agrees(s, d)
    {
      assert Agrees(r, d) && r.chans[d].fd != fd;
    }
    assert Agrees(r, c);
    assert Agrees(s, c);
  }

  // ----- Whole runs

  datatype Action<C> =
    | Create(c: C, fd: int)
    | Set(c: C, events: Events)
    | Remove(c: C)
    | Destroy(c: C)

  /** A channel is destroyed only when it is not registered. */
  ghost predicate Enabled<C>(r: Registry<C>, a: Action<C>) {
    match a
    case Create(c, _) => c !in r.chans
    case Set(c, _) => c in r.chans
    case Remove(c) => c in r.chans
    case Destroy(c) => c in r.chans && r.chans[c].index == New
  }

  /** A new channel is for an fd that no live channel has. */
  ghost predicate FreshFd<C>(r: Registry<C>, a: Action<C>) {
    a.Create? ==> forall d :: d in r.chans ==> r.chans[d].fd != a.fd
  }

  function CreateChannel<C>(r: Registry<C>, c: C, fd: int): Registry<C> {
    r.(chans := r.chans[c := Chan(fd, NO_EVENT, New)])
  }

  function DestroyChannel<C>(r: Registry<C>, c: C): Registry<C> {
    r.(chans := r.chans - {c})
  }

  ghost function Apply<C>(r: Registry<C>, a: Action<C>): Registry<C>
    requires Enabled(r, a)
  {
    match a
    case Create(c, fd) => CreateChannel(r, c, fd)
    case Set(c, events) => SetEvents(r, c, events)
    case Remove(c) => RemoveChannel(r, c)
    case Destroy(c) => DestroyChannel(r, c)
  }

  ghost predicate Legal<C>(r: Registry<C>, actions: seq<Action<C>>)
    decreases actions
  {
    actions == [] ||
    (Enabled(r, actions[0]) && Legal(Apply(r, actions[0]), actions[1..]))
  }

  ghost function Run<C>(r: Registry<C>, actions: seq<Action<C>>): Registry<C>
    requires Legal(r, actions)
    decreases actions
  {
    if actions == [] then r else Run(Apply(r, actions[0]), actions[1..])
  }

  /** Every channel of the run is created on an fd of its own. */
  ghost predicate FreshFds<C>(r: Registry<C>, actions: seq<Action<C>>)
    requires Legal(r, actions)
    decreases actions
  {
    actions == [] || (FreshFd(r, actions[0]) && FreshFds(Apply(r, actions[0]), actions[1..]))
  }

  lemma CreateKeepsInv<C>(r: Registry<C>, c: C, fd: int)
    requires Inv(r) && Enabled(r, Create(c, fd)) && FreshFd(r, Create(c, fd))
    ensures Inv(CreateChannel(r, c, fd))
    ensures fd !in r.kernel && fd !in r.channels
  {
    var s := CreateChannel(r, c, fd);
    forall d | d in r.chans
      ensures Agrees(s, d)
    {
      assert Agrees(r, d);
    }
    assert Agrees(s, c);
  }

  lemma DestroyKeepsInv<C>(r: Registry<C>, c: C)
    requires Inv(r) && Enabled(r, Destroy(c))
    ensures Inv(DestroyChannel(r, c))
  {
    var s := DestroyChannel(r, c);
    forall d | d in s.chans
      ensures Agrees(s, d)
    {
      assert Agrees(r, d);
    }
  }

  lemma ApplyKeepsInv<C>(r: Registry<C>, a: Action<C>)
    requires Inv(r) && Enabled(r, a) && FreshFd(r, a)
    ensures Inv(Apply(r, a))
  {
    match a
    case Create(c, fd) => CreateKeepsInv(r, c, fd);
    case Set(c, events) => SetEventsKeepsInv(r, c, events);
    case Remove(c) => RemoveKeepsInv(r, c);
    case Destroy(c) => DestroyKeepsInv(r, c);
  }

  /** In every run over channels with distinct fds, index, fd map and kernel set agree, and no
      epoll_ctl call is ever refused. */
  lemma {:induction false} KernelAgreement<C>(r: Registry<C>, actions: seq<Action<C>>)
    requires Inv(r) && Legal(r, actions) && FreshFds(r, actions)
    ensures Inv(Run(r, actions)) && !Run(r, actions).fatal
    decreases actions
  {
    if actions != [] {
      ApplyKeepsInv(r, actions[0]);
      KernelAgreement(Apply(r, actions[0]), actions[1..]);
    }
  }

  // ----- Shared fds

  /** The kernel's set lists the channels with index kAdded. This is what is left of the agreement
      when channels may share fds. */
  ghost predicate KernelOk<C>(r: Registry<C>) {
    && !r.fatal
    && (forall c :: c in r.chans && r.chans[c].index == Added ==>
          r.chans[c].fd in r.kernel && r.kernel[r.chans[c].fd] == Interest(c, r.chans[c].events))
    && (forall fd :: fd in r.kernel ==>
          r.kernel[fd].chan in r.chans && r.chans[r.kernel[fd].chan].fd == fd
          && r.chans[r.kernel[fd].chan].index == Added)
  }

  /** A channel is about to be added while another one on its fd is. */
  ghost predicate Collides<C>(r: Registry<C>, a: Action<C>)
    requires Enabled(r, a)
  {
    a.Set? && r.chans[a.c].index != Added
    && exists d :: d in r.chans && r.chans[d].fd == r.chans[a.c].fd && r.chans[d].index == Added
  }

  /** Why distinct fds matter: with or without them, an action ends the program exactly when it
      collides, and otherwise the kernel's set stays right. */
  lemma SharedFdIsFatal<C>(r: Registry<C>, a: Action<C>)
    requires KernelOk(r) && Enabled(r, a)
    ensures Apply(r, a).fatal <==> Collides(r, a)
    ensures !Collides(r, a) ==> KernelOk(Apply(r, a))
  {
    if a.Set? && r.chans[a.c].index != Added && r.chans[a.c].fd in r.kernel {
      var d := r.kernel[r.chans[a.c].fd].chan;
      assert d in r.chans && r.chans[d].fd == r.chans[a.c].fd && r.chans[d].index == Added;
    }
  }

  ghost predicate HasCollision<C>(r: Registry<C>, actions: seq<Action<C>>)
    requires Legal(r, actions)
    decreases actions
  {
    actions != [] && (Collides(r, actions[0]) || HasCollision(Apply(r, actions[0]), actions[1..]))
  }

  lemma {:induction false} FatalStays<C>(r: Registry<C>, actions: seq<Action<C>>)
    requires r.fatal && Legal(r, actions)
    ensures Run(r, actions).fatal
    decreases actions
  {
    if actions != [] {
      FatalStays(Apply(r, actions[0]), actions[1..]);
    }
  }

  /** Over every run, on whatever fds: the program is ended by a refused epoll_ctl call if and only
      if at some point a channel was added while another one on its fd was. */
  lemma {:induction false} FatalIff<C>(r: Registry<C>, actions: seq<Action<C>>)
    requires KernelOk(r) && Legal(r, actions)
    ensures Run(r, actions).fatal <==> HasCollision(r, actions)
    decreases actions
  {
    if actions != [] {
      SharedFdIsFatal(r, actions[0]);
      if Collides(r, actions[0]) {
        FatalStays(Apply(r, actions[0]), actions[1..]);
      } else {
        FatalIff(Apply(r, actions[0]), actions[1..]);
      }
    }
  }

  /** disableAll on a channel that is already deleted puts it back into the kernel's set with an
      empty mask, under which the kernel still reports errors and hang-ups. */
  lemma DisablingTwiceAddsBack<C>(r: Registry<C>, c: C)
    requires Inv(r) && c in r.chans && r.chans[c].index == Added
    ensures var once := SetEvents(r, c, NO_EVENT);
      var twice := SetEvents(once, c, NO_EVENT);
      && r.chans[c].fd !in once.kernel
      && r.chans[c].fd in twice.kernel && twice.kernel[r.chans[c].fd] == Interest(c, NO_EVENT)
  {
    assert Agrees(r, c);
  }

  // ----- What epoll_wait may report

  datatype Report<C> = Report(chan: C, mask: Events)

  ghost predicate InKernel<C>(r: Registry<C>, report: Report<C>) {
    exists fd :: fd in r.kernel && r.kernel[fd].chan == report.chan
                 && Reportable(report.mask, r.kernel[fd].events)
  }

  /** One epoll_wait: at most one report for each channel, each for an fd in the kernel's set. */
  ghost predicate KernelMayReport<C>(r: Registry<C>, reports: seq<Report<C>>) {
    && (forall i :: 0 <= i < |reports| ==> InKernel(r, reports[i]))
    && (forall i, j :: 0 <= i < j < |reports| ==> reports[i].chan != reports[j].chan)
  }

  /** Every reported pointer is a live, registered channel, and its mask fits its interest. */
  lemma ReportsAreRegistered<C>(r: Registry<C>, reports: seq<Report<C>>, i: nat)
    requires Inv(r) && KernelMayReport(r, reports) && i < |reports|
    ensures var c := reports[i].chan;
      && c in r.chans && r.chans[c].index == Added && HasChannel(r, c)
      && Reportable(reports[i].mask, r.chans[c].events)
  {
    assert InKernel(r, reports[i]);
    var fd :| fd in r.kernel && r.kernel[fd].chan == reports[i].chan
              && Reportable(reports[i].mask, r.kernel[fd].events);
    assert Agrees(r, reports[i].chan);
  }

  /** A channel with index kAdded may be reported with exactly the masks that fit its interest; one
      that is not added is never reported. */
  lemma AddedMayBeReported<C>(r: Registry<C>, c: C, mask: Events)
    requires Inv(r) && c in r.chans
    ensures KernelMayReport(r, [Report(c, mask)])
       <==> r.chans[c].index == Added && Reportable(mask, r.chans[c].events)
  {
    assert Agrees(r, c);
    if r.chans[c].index == Added && Reportable(mask, r.chans[c].events) {
      assert r.kernel[r.chans[c].fd] == Interest(c, r.chans[c].events);
      assert InKernel(r, Report(c, mask));
    }
    if KernelMayReport(r, [Report(c, mask)]) {
      assert InKernel(r, [Report(c, mask)][0]);
    }
  }
}
