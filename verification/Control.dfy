/**
 The epoch table: which stream epoch each served camera's lines are tagged
 with, as the control thread folds the host's announcements into it.
 */
module Control {
  import opened Common

  datatype ControlEvent =
    | Started(camera: string, epoch: string)
    | Ended(camera: string, epoch: string)
    | Ignored

  // A served camera has an entry from the start; it has an epoch once one was
  // announced.
  type Epochs = map<string, Option<string>>

  function EpochOf(epochs: Epochs, camera: string): Option<string> {
    if camera in epochs then epochs[camera] else None
  }

  function Applied(epochs: Epochs, event: ControlEvent): Epochs {
    match event
    case Started(camera, epoch) => if camera in epochs then epochs[camera := Some(epoch)] else epochs
    case Ended(camera, epoch) =>
      if camera in epochs && epochs[camera] == Some(epoch) then epochs[camera := None] else epochs
    case Ignored => epochs
  }

  class Streams {
    var epochs: Epochs

    constructor (cameras: set<string>)
      ensures epochs == map c | c in cameras :: None
    {
      epochs := map c | c in cameras :: None;
    }

    method Apply(event: ControlEvent)
      modifies this
      ensures epochs == Applied(old(epochs), event)
    {
      match event {
        case Started(camera, epoch) =>
          if camera in epochs { epochs := epochs[camera := Some(epoch)]; }
        case Ended(camera, epoch) =>
          if camera in epochs && epochs[camera] == Some(epoch) { epochs := epochs[camera := None]; }
        case Ignored =>
      }
    }
  }

  function AppliedAll(epochs: Epochs, events: seq<ControlEvent>): Epochs {
    if events == [] then epochs else Applied(AppliedAll(epochs, events[..|events| - 1]), events[|events| - 1])
  }

  // The epoch the history leaves a camera with: the last one started, unless
  // that very epoch was ended after.
  function EpochByHistory(first: Option<string>, camera: string, events: seq<ControlEvent>): Option<string> {
    if events == [] then first
    else
      var before := EpochByHistory(first, camera, events[..|events| - 1]);
      match events[|events| - 1]
      case Started(c, e) => if c == camera then Some(e) else before
      case Ended(c, e) => if c == camera && before == Some(e) then None else before
      case Ignored => before
  }

  // A camera's epoch comes from its own announcements alone, the set of served
  // cameras never grows, and an unserved camera never has an epoch.
  lemma {:induction false} EpochFollowsHistory(epochs: Epochs, events: seq<ControlEvent>, camera: string)
    ensures AppliedAll(epochs, events).Keys == epochs.Keys
    ensures EpochOf(AppliedAll(epochs, events), camera)
         == if camera in epochs then EpochByHistory(epochs[camera], camera, events) else None
  {
    if events != [] { EpochFollowsHistory(epochs, events[..|events| - 1], camera); }
  }

  // The host writes an end of the old epoch just before the start of the new
  // one; the camera ends up on the new epoch whichever is folded in first.
  lemma BounceEitherOrder(epochs: Epochs, camera: string, prior: string, next: string)
    requires camera in epochs && prior != next
    ensures EpochOf(AppliedAll(epochs, [Ended(camera, prior), Started(camera, next)]), camera) == Some(next)
    ensures EpochOf(AppliedAll(epochs, [Started(camera, next), Ended(camera, prior)]), camera) == Some(next)
  {
    var a := [Ended(camera, prior), Started(camera, next)];
    var b := [Started(camera, next), Ended(camera, prior)];
    assert a[..1] == [Ended(camera, prior)] && b[..1] == [Started(camera, next)];
    assert AppliedAll(epochs, a[..1]) == Applied(epochs, a[0]);
    assert AppliedAll(epochs, b[..1]) == Applied(epochs, b[0]);
  }
}
