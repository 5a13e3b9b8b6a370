/**
 The Python client of client-held inference (tools/client_held_query.py) against any transport: one call may be
 answered, refused, lost, or stopped by the instruction limit.
 */
module QueryClient {
  import opened Arithmetic
  import opened Wrappers
  import opened Numbers
  import opened Grid
  import opened Types
  import opened Bytes
  import opened Inference
  import opened Continuation
  import opened Transport
  import opened Queries
  import opened QueryCalls
  import opened QueryCompletion

  class QuerySession {
    const input: TokenInput
    const int8: bool
    const compressed: bool
    const auto: bool
    const retries: nat
    const net: Network
    var steps: nat
    var autoCap: nat
    var progress: Option<Progress>
    var bundle: Option<Bytes32>
    /** Calls made so far, successful or not. */
    var sent: nat
    /** The calls themselves. */
    ghost var log: seq<Request>

    /** Short F32 inputs are inferred in one call. */
    predicate Direct() {
      auto && !int8 && |input.inputIds| <= 16
    }

    predicate FusedBegin() {
      auto && !Direct()
    }

    /** The width nothing may exceed: the cap in automatic mode, else the requested width. */
    function Limit(): nat
      reads this
    {
      if auto then autoCap else steps
    }

    /** What every automatic call covers at least. */
    function Pace(): nat
      reads this
    {
      Min(Tier(|input.inputIds|, int8), autoCap)
    }

    ghost function Halvings(): nat
      reads this
    {
      Rejections(net, log)
    }

    ghost predicate Valid()
      reads this
    {
      && 1 <= steps <= 16 && 1 <= autoCap <= 16 && (Direct() ==> steps == 1) && Room(Halvings(), Limit())
      && |log| == sent
      && (progress.Some? && !progress.value.done ==>
            !Direct() && progress.value.completed < progress.value.total && (auto ==> progress.value.total == 32))
    }

    /** `None` asks for automatic widths. */
    constructor (net: Network, input: TokenInput, steps: Option<nat>, retries: nat, int8: bool, compressed: bool)
      requires steps.Some? ==> 1 <= steps.value <= 16
      ensures Valid() && progress.None? && sent == 0 && log == [] && auto == steps.None?
      ensures this.input == input && this.int8 == int8 && this.compressed == compressed && this.retries == retries && this.net == net
    {
      this.net := net;
      this.input, this.int8, this.compressed, this.auto, this.retries := input, int8, compressed, steps.None?, retries;
      this.steps, autoCap := if steps.Some? then steps.value else 1, 16;
      progress, bundle, sent, log := None, None, 0, [];
    }

    /** The calls made since `from` repeat one request, up to a smaller width. */
    ghost predicate Repeats(from: nat, p: Option<Progress>, limit: nat)
      reads this
    {
      SameAsks(log, from, input, Direct(), FusedBegin(), p, limit)
    }

    /** One call, put on record. */
    method Send(request: Request) returns (result: Reply)
      requires |log| == sent
      modifies this`sent, this`log
      ensures result == net(old(sent), request) && sent == old(sent) + 1 == |log| && log == old(log) + [request]
      ensures Halvings() == old(Halvings()) + if Rejected(net, old(sent), request) then 1 else 0
    {
      hide Rejections, Rejected;
      result := net(sent, request);
      OneMoreCall(net, log, request);
      sent, log := sent + 1, log + [request];
    }

    /**
     The retry loop: the same bytes again after a transport failure, half the width after an instruction-limit
     rejection, and never more than `retries` of the former or four of the latter.
     */
    method Call() returns (reply: Option<QueryProgress>)
      requires Valid() && !(progress.Some? && progress.value.done) && steps <= Limit()
      modifies this`steps, this`autoCap, this`sent, this`log
      ensures Valid() && old(sent) < sent && old(Halvings()) <= Halvings() <= 4 && old(log) <= log
      ensures sent - old(sent) <= 1 + retries + (Halvings() - old(Halvings()))
      ensures Repeats(old(sent), progress, old(steps)) && steps <= old(steps)
      ensures reply.Some? ==> net(sent - 1, Ask(input, Direct(), FusedBegin(), progress, steps)) == Answer(reply.value)
      ensures steps == Halved(old(steps), Halvings() - old(Halvings()))
      ensures steps == old(steps) || Halvings() > old(Halvings())
      ensures autoCap == if auto && Halvings() > old(Halvings()) then Min(old(autoCap), steps) else old(autoCap)
      ensures reply.None? && Patient(net, retries) ==> net(sent - 1, Ask(input, Direct(), FusedBegin(), progress, steps)).Refused?
    {
      hide Ask, SameAsks, Room, AllFinite, Rejections, Rejected, Stumbled, Unanswered, Patient;
      ghost var start := sent;
      NoneYet(net, log, input, Direct(), FusedBegin(), progress, steps);
      var attempts, beginning := 0, progress.None?;
      reply := None;
      var finished := false;
      while !finished
        invariant Valid() && steps <= old(steps) && steps <= Limit() && attempts <= retries
        invariant autoCap == if auto && Halvings() > old(Halvings()) then Min(old(autoCap), steps) else old(autoCap)
        invariant old(sent) <= sent && old(Halvings()) <= Halvings() && old(log) <= log
        invariant steps == Halved(old(steps), Halvings() - old(Halvings()))
        invariant sent - old(sent) == attempts + (Halvings() - old(Halvings())) + if finished then 1 else 0
        invariant Repeats(old(sent), progress, old(steps))
        invariant reply.Some? ==> finished && net(sent - 1, Ask(input, Direct(), FusedBegin(), progress, steps)) == Answer(reply.value)
        invariant !finished ==> Unanswered(net, log, start) && Stumbled(net, log, start) == attempts
        invariant finished && reply.None? && Patient(net, retries) ==>
                    net(sent - 1, Ask(input, Direct(), FusedBegin(), progress, steps)).Refused?
        decreases !finished, steps, retries - attempts
      {
        var request := Ask(input, Direct(), FusedBegin(), progress, steps);
        OneMoreAsk(log, start, input, Direct(), FusedBegin(), progress, old(steps), steps);
        AskRejected(net, sent, input, Direct(), FusedBegin(), progress, steps);
        if net(sent, request).Raised? {
          Failing(net, log, request, start, retries);
        }
        ghost var before := Halvings();
        var result := Send(request);
        match result
        case Answer(p) =>
          reply, finished := Some(p), true;
        case Refused =>
          finished := true;
        case Raised(instructionLimit, transient) =>
          if instructionLimit && (!beginning || FusedBegin()) && steps > 1 {
            HalvingFits(before, Limit(), steps);
            steps := steps / 2;
            if auto {
              autoCap := Min(autoCap, steps);
            }
          } else if !transient || attempts >= retries {
            finished := true;
          } else {
            attempts := attempts + 1;
          }
      }
      AtMostFour(Halvings(), Limit());
    }

    /** The checks on a decoded reply. */
    method Accept(next: Progress) returns (ok: bool)
      requires Valid() && !(progress.Some? && progress.value.done)
      modifies this`bundle
      ensures Valid() && (ok <==> Checked(next) && (next.done || Matches(next, if Direct() then Some(AUTO_BUNDLE) else old(bundle))))
      ensures bundle == old(bundle) || (Direct() && bundle == Some(AUTO_BUNDLE)) || (!next.done && bundle == Some(next.bundle))
    {
      hide Rejections, Room;
      if !Checked(next) {
        return false;
      }
      if Direct() {
        bundle := Some(AUTO_BUNDLE);
      }
      if !next.done {
        if next.int8 != int8 || (bundle.Some? && bundle.value != next.bundle) {
          return false;
        }
        bundle := Some(next.bundle);
        if auto && next.bundle != AUTO_BUNDLE {
          return false;
        }
      }
      ok := true;
    }

    /** The reply is in the format asked for and from the model seen before. */
    predicate Matches(next: Progress, seen: Option<Bytes32>) {
      next.int8 == int8 && (seen.Some? ==> seen.value == next.bundle) && (auto ==> next.bundle == AUTO_BUNDLE)
    }

    /** The request of `advance` and its decoded reply. */
    method Exchange<H(!new)>(z: Zlib, ghost f: Format<H>) returns (next: Option<Progress>)
      requires Valid() && !(progress.Some? && progress.value.done)
      modifies this`steps, this`autoCap, this`sent, this`log
      ensures Valid() && old(sent) <= sent && old(Halvings()) <= Halvings() <= 4
      ensures sent - old(sent) <= 1 + retries + (Halvings() - old(Halvings()))
      ensures Repeats(old(sent), progress, Width(progress, old(autoCap), old(steps)))
      ensures autoCap <= old(autoCap)
      ensures auto && !Direct() ==> steps >= Min(Pace(), 32 - if progress.Some? then progress.value.completed else 0)
      ensures next.Some? && Sound(f) && Lossless(z) && Faithful(net, z, f, compressed)
              && (progress.Some? ==> TrueProgress(z, f, compressed, input, progress.value))
              ==> TrueProgress(z, f, compressed, input, next.value)
      ensures Smooth(net, z, f, input, int8, auto, compressed, retries, progress, bundle) ==>
                next.Some? && Expects(z, f, net, next.value)
    {
      hide Decode, Serve, TrueProgress, SameAsks, Ask, Tier, Room, Lossless, Sound, Faithful, DecodeDirect, LogitsOk, Rejections, Patient,
           Smooth, InputOk, Halved, AutoWidth, Stumbled, Unanswered, After;
      next := None;
      NoneYet(net, log, input, Direct(), FusedBegin(), progress, Width(progress, autoCap, steps));
      AtMostFour(Halvings(), Limit());
      ghost var smooth := Smooth(net, z, f, input, int8, auto, compressed, retries, progress, bundle);
      if smooth {
        SmoothFacts(net, z, f, input, int8, auto, compressed, retries, progress, bundle);
      }
      var beginning := progress.None?;
      if auto && !Direct() {
        steps := AutoWidth(|input.inputIds|, int8, if beginning then 0 else progress.value.completed, autoCap);
      }
      if beginning && !InputOk(input) {
        return;
      }
      var reply := Call();
      if smooth {
        Heard(net, sent - 1, z, f, input, int8, auto, compressed, retries, progress, bundle, Direct(), FusedBegin(), steps, reply);
      }
      if reply.None? {
        return;
      }
      next := if Direct() then DecodeDirect(reply.value) else Decode(z, reply.value);
      if next.Some? {
        Learned(net, z, f, compressed, input, progress, Direct(), FusedBegin(), steps, sent - 1, reply.value, next.value);
      }
    }

    /** What the next progress has to be when nothing goes wrong. */
    ghost predicate Expects<H(!new)>(z: Zlib, f: Format<H>, net: Network, next: Progress)
      reads this
    {
      && next.completed == After(f.engine.steps, progress, Direct(), FusedBegin(), steps) <= next.total == f.engine.steps
      && (next.done <==> next.completed == f.engine.steps) && (next.done ==> |next.logits| == |input.markers|)
      && (!next.done ==> next.int8 == int8 && next.bundle == f.engine.bundle)
      && Smooth(net, z, f, input, int8, auto, compressed, retries, Some(next), bundle)
      && Smooth(net, z, f, input, int8, auto, compressed, retries, Some(next), Some(f.engine.bundle))
    }

    /** `advance` */
    method Advance<H(!new)>(z: Zlib, ghost f: Format<H>) returns (ok: bool)
      requires Valid()
      modifies this
      ensures Valid() && old(sent) <= sent && old(Halvings()) <= Halvings() <= 4 && (!ok ==> progress == old(progress))
      ensures sent - old(sent) <= 1 + retries + (Halvings() - old(Halvings()))
      ensures Repeats(old(sent), old(progress), Width(old(progress), old(autoCap), old(steps)))
      ensures ok ==>
                && progress.Some? && (progress.value.done <==> progress.value.completed == progress.value.total)
                && (old(progress).Some? ==>
                      !old(progress).value.done && progress.value.total == old(progress).value.total
                      && old(progress).value.completed < progress.value.completed <= progress.value.total)
      ensures autoCap <= old(autoCap)
      ensures ok && auto && !Direct() ==>
                progress.value.completed >= Min(Pace() + (if old(progress).Some? then old(progress).value.completed else 0), 32)
      ensures ok && Sound(f) && Lossless(z) && Faithful(net, z, f, compressed)
              && (old(progress).Some? ==> TrueProgress(z, f, compressed, input, old(progress).value))
              ==> TrueProgress(z, f, compressed, input, progress.value)
      ensures Smooth(net, z, f, input, int8, auto, compressed, retries, old(progress), old(bundle))
              && !(old(progress).Some? && old(progress).value.done)
              ==> ok && Smooth(net, z, f, input, int8, auto, compressed, retries, progress, bundle)
    {
      hide TrueProgress, SameAsks, Tier, Room, Lossless, Sound, Faithful, Rejections, Smooth, AutoWidth;
      AtMostFour(Halvings(), Limit());
      NoneYet(net, log, input, Direct(), FusedBegin(), progress, Width(progress, autoCap, steps));
      if progress.Some? && progress.value.done {
        return false;
      }
      ghost var smooth := Smooth(net, z, f, input, int8, auto, compressed, retries, progress, bundle);
      if smooth {
        SmoothFacts(net, z, f, input, int8, auto, compressed, retries, progress, bundle);
      }
      var next := Exchange(z, f);
      if next.None? {
        return false;
      }
      ok := Accept(next.value);
      if !ok {
        return;
      }
      progress := next;
    }

    /** The width `advance` starts from. */
    function Width(p: Option<Progress>, cap: nat, steps: nat): nat
      requires cap >= 1 && (auto && !Direct() && p.Some? && !p.value.done ==> p.value.completed < 32)
    {
      if auto && !Direct() && !(p.Some? && p.value.done) then
        AutoWidth(|input.inputIds|, int8, if p.None? then 0 else p.value.completed, cap)
      else steps
    }

    /** The progress checks: exactly the phases asked for, the same total, done exactly at the end, one logit per marker. */
    predicate Checked(next: Progress)
      requires Valid() && !(progress.Some? && progress.value.done)
      reads this
    {
      var expected :=
        if Direct() then 32
        else if progress.None? then if FusedBegin() then Min(steps, next.total) else 0
        else Min(progress.value.completed + steps, progress.value.total);
      && next.completed == expected <= next.total
      && (progress.Some? ==> next.total == progress.value.total)
      && (next.done <==> expected == next.total)
      && (next.done ==> |next.logits| == |input.markers|)
      && (auto ==> next.total == 32)
    }

    /** `finish`: advance until the logits are there or a call gives up. */
    method Finish<H(!new)>(z: Zlib, ghost f: Format<H>) returns (ok: bool, ghost advances: nat)
      requires Valid()
      modifies this
      ensures Valid() && (ok ==> progress.Some? && progress.value.done) && Rejections(net, log) <= 4
      ensures sent - old(sent) <= Area(advances, retries + 1) + 4
      ensures advances <= 2 + if progress.Some? then progress.value.completed else 0
      ensures auto && !Direct() && old(progress).None? && advances > 0 ==> Area(advances - 1, Pace()) < 32
      ensures ok && Sound(f) && Lossless(z) && Faithful(net, z, f, compressed)
              && (old(progress).Some? ==> TrueProgress(z, f, compressed, input, old(progress).value))
              ==> Infer(f.engine, input) == Ok(progress.value.logits)
      ensures Smooth(net, z, f, input, int8, auto, compressed, retries, old(progress), old(bundle))
              ==> ok && Infer(f.engine, input) == Ok(progress.value.logits)
    {
      hide Sound, Lossless, Faithful, Area, Room, Rejections, Smooth, Tier;
      AtMostFour(Halvings(), Limit());
      advances, ok := 0, true;
      NextRow(0, retries + 1);
      NextRow(0, Pace());
      ghost var smooth := Smooth(net, z, f, input, int8, auto, compressed, retries, progress, bundle);
      ghost var paced := auto && !Direct() && progress.None?;
      while ok && !(progress.Some? && progress.value.done)
        invariant Valid() && old(Halvings()) <= Halvings() <= 4
        invariant sent - old(sent) <= Area(advances, retries + 1) + (Halvings() - old(Halvings()))
        invariant advances <= (if progress.Some? then 1 + progress.value.completed else 0) + if ok then 0 else 1
        invariant paced && advances > 0 ==> Area(advances - 1, Pace()) < 32
        invariant paced && ok ==>
                    if progress.None? then advances == 0
                    else progress.value.completed >= 32 || progress.value.completed >= Area(advances, Pace())
        invariant (ok && Sound(f) && Lossless(z) && Faithful(net, z, f, compressed) && progress.Some?
                   && (old(progress).Some? ==> TrueProgress(z, f, compressed, input, old(progress).value)))
                  ==> TrueProgress(z, f, compressed, input, progress.value)
        invariant smooth ==> ok && Smooth(net, z, f, input, int8, auto, compressed, retries, progress, bundle)
        decreases ok, progress.None?, if progress.Some? then progress.value.total - progress.value.completed else 0
      {
        NextRow(advances, retries + 1);
        ghost var pace := Pace();
        ok := Advance(z, f);
        Slower(advances, pace, Pace());
        advances := advances + 1;
      }
      if smooth {
        SmoothFacts(net, z, f, input, int8, auto, compressed, retries, progress, bundle);
      }
    }
  }

  /** As many calls cover no more at a lower pace. */
  lemma Slower(n: nat, pace: nat, slower: nat)
    requires slower <= pace
    ensures Area(n, slower) <= Area(n, pace) && Area(n + 1, slower) <= Area(n, pace) + slower && Area(0, pace) == 0
  {
  }

  /** Opening a session refuses a width outside 1 to 16. */
  method Open(net: Network, input: TokenInput, steps: Option<nat>, retries: nat, int8: bool, compressed: bool) returns (s: Option<QuerySession>)
    ensures s.Some? <==> steps.None? || 1 <= steps.value <= 16
    ensures s.Some? ==> fresh(s.value) && s.value.Valid() && s.value.progress.None? && s.value.log == [] && s.value.input == input && s.value.net == net
  {
    if steps.Some? && !(1 <= steps.value <= 16) {
      return None;
    }
    var session := new QuerySession(net, input, steps, retries, int8, compressed);
    s := Some(session);
  }
}
