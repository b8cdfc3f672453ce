/** The checkpoint manager (Assets/Scripts/Checkpoint/CheckpointManager.cs): a
    register holding the last spawn point, and a teleport that fades the screen out,
    moves the player onto the target after a wait, and fades it back in after a
    second wait. Each running SmoothTeleportation coroutine is a record in
    `teleports`, advanced by ResumeTeleport when its WaitForSeconds elapses; the
    calls the manager makes into other components are appended to `events`. */
module Checkpoint {
  import opened Geometry

  /** The seconds of each fade and of each wait. */
  const FadeDuration: real := 0.25

  /** A spawn or start point: its pose and the y component of its Euler angles,
      which is what the climbing momentum manager is given. */
  datatype Marker = Marker(pose: Pose, yaw: real)

  /** The calls the manager makes: ClimbingMomentumManager.Adjust, FadingScript's
      FadeOut and FadeIn, the player's move, and ZipLineBehavior.Reactivate. */
  datatype Event =
    | Adjusted(yaw: real)
    | FadedOut(duration: real)
    | Moved(target: Pose)
    | FadedIn(duration: real)
    | Reactivated(zipline: nat)

  /** The player's transform, which the coroutine moves. */
  class Body {
    var pose: Pose

    constructor (pose: Pose)
      ensures this.pose == pose
    {
      this.pose := pose;
    }
  }

  /** Where a SmoothTeleportation coroutine is: in its first wait, in its second
      wait, or finished. */
  datatype Phase = AwaitingMove | AwaitingFadeIn | Finished

  datatype Teleport = Teleport(player: Body, target: Pose, phase: Phase)

  /** One Reactivate call per zipline found, in order. */
  function Reactivations(ziplines: seq<nat>): (r: seq<Event>)
    ensures |r| == |ziplines|
    ensures forall i :: 0 <= i < |ziplines| ==> r[i] == Reactivated(ziplines[i])
  {
    seq(|ziplines|, i requires 0 <= i < |ziplines| => Reactivated(ziplines[i]))
  }

  /** The calls a SmoothTeleportation coroutine towards `target` has made once it is
      in `phase`. */
  function CallsSoFar(target: Pose, phase: Phase): seq<Event> {
    match phase
    case AwaitingMove => [FadedOut(FadeDuration)]
    case AwaitingFadeIn => [FadedOut(FadeDuration), Moved(target)]
    case Finished => [FadedOut(FadeDuration), Moved(target), FadedIn(FadeDuration)]
  }

  /** The phase a coroutine reaches when its current wait ends. */
  function NextPhase(phase: Phase): Phase {
    match phase
    case AwaitingMove => AwaitingFadeIn
    case AwaitingFadeIn => Finished
    case Finished => Finished
  }

  /** Each resumption adds exactly one call to what the coroutine has done, and the
      whole run is: fade out, move onto the target, fade in. */
  lemma {:induction false} CoroutineOrder(target: Pose, phase: Phase)
    requires !phase.Finished?
    ensures |CallsSoFar(target, NextPhase(phase))| == |CallsSoFar(target, phase)| + 1
    ensures CallsSoFar(target, NextPhase(phase))[..|CallsSoFar(target, phase)|] == CallsSoFar(target, phase)
    ensures CallsSoFar(target, NextPhase(NextPhase(AwaitingMove))) ==
            [FadedOut(FadeDuration), Moved(target), FadedIn(FadeDuration)]
  {
  }

  class CheckpointManager {
    var spawnPoint: Option<Marker>
    var gameStartPoint: Option<Marker>
    var teleports: seq<Teleport>
    var events: seq<Event>
    /** Whether Start threw because no "GameStart" object exists. */
    var faulted: bool

    /** A new manager has no spawn point, no start point and has done nothing. */
    constructor ()
      ensures spawnPoint.None? && gameStartPoint.None?
      ensures teleports == [] && events == [] && !faulted
    {
      spawnPoint, gameStartPoint := None, None;
      teleports, events := [], [];
      faulted := false;
    }

    /** Start: the start point is the object named "GameStart"; without one, reading
        its transform throws and the start point stays unset. */
    method Start(gameStart: Option<Marker>)
      modifies this`gameStartPoint, this`faulted
      ensures gameStartPoint == (if gameStart.Some? then gameStart else old(gameStartPoint))
      ensures faulted == (old(faulted) || gameStart.None?)
    {
      if gameStart.None? {
        faulted := true;
        return;
      }
      gameStartPoint := gameStart;
    }

    /** updateSpawnPoint: the register takes the new value, null included. */
    method UpdateSpawnPoint(newSpawnPoint: Option<Marker>)
      modifies this`spawnPoint
      ensures spawnPoint == newSpawnPoint
    {
      spawnPoint := newSpawnPoint;
    }

    /** getSpawnPoint: the value the register holds. */
    method GetSpawnPoint() returns (r: Option<Marker>)
      ensures r == spawnPoint
    {
      r := spawnPoint;
    }

    /** SmoothTeleportation up to its first wait: the screen fades out and the
        coroutine waits to move the player. */
    method SmoothTeleportation(player: Body, target: Pose)
      modifies this`events, this`teleports
      ensures events == old(events) + [FadedOut(FadeDuration)]
      ensures teleports == old(teleports) + [Teleport(player, target, AwaitingMove)]
      ensures events == old(events) + CallsSoFar(target, AwaitingMove)
    {
      events := events + [FadedOut(FadeDuration)];
      teleports := teleports + [Teleport(player, target, AwaitingMove)];
    }

    /** The end of a wait of coroutine `i`: after the first, the player takes the
        target's position and rotation; after the second, the screen fades in and
        the coroutine ends. */
    method ResumeTeleport(i: nat)
      requires i < |teleports| && !teleports[i].phase.Finished?
      modifies this`events, this`teleports, teleports[i].player
      ensures old(teleports[i].phase).AwaitingMove? ==>
                old(teleports[i]).player.pose == old(teleports[i]).target &&
                events == old(events) + [Moved(old(teleports[i]).target)] &&
                teleports == old(teleports)[i := old(teleports[i]).(phase := AwaitingFadeIn)]
      ensures old(teleports[i].phase).AwaitingFadeIn? ==>
                unchanged(old(teleports[i]).player) &&
                events == old(events) + [FadedIn(FadeDuration)] &&
                teleports == old(teleports)[i := old(teleports[i]).(phase := Finished)]
      // the coroutine's record moves on by NextPhase and the log gains the one call
      // CallsSoFar adds for that phase
      ensures teleports == old(teleports)[i := old(teleports[i]).(phase := NextPhase(old(teleports[i].phase)))]
      ensures var t := old(teleports[i]);
              events == old(events) + CallsSoFar(t.target, NextPhase(t.phase))[|CallsSoFar(t.target, t.phase)|..]
    {
      var t := teleports[i];
      if t.phase.AwaitingMove? {
        t.player.pose := t.target;
        events := events + [Moved(t.target)];
        teleports := teleports[i := t.(phase := AwaitingFadeIn)];
      } else {
        events := events + [FadedIn(FadeDuration)];
        teleports := teleports[i := t.(phase := Finished)];
      }
    }

    /** What both teleports do with their target: Adjust with its yaw, then start
        the SmoothTeleportation coroutine towards it. */
    method AdjustAndTeleport(player: Body, target: Marker)
      modifies this`events, this`teleports
      ensures events == old(events) + [Adjusted(target.yaw), FadedOut(FadeDuration)]
      ensures teleports == old(teleports) + [Teleport(player, target.pose, AwaitingMove)]
    {
      events := events + [Adjusted(target.yaw)];
      SmoothTeleportation(player, target.pose);
    }

    /** The reactivation loop over the ziplines found. */
    method ReactivateZipLines(ziplines: seq<nat>)
      modifies this`events
      ensures events == old(events) + Reactivations(ziplines)
    {
      var i := 0;
      while i < |ziplines|
        invariant 0 <= i <= |ziplines|
        invariant events == old(events) + Reactivations(ziplines[..i])
      {
        assert Reactivations(ziplines[..i + 1]) == Reactivations(ziplines[..i]) + [Reactivated(ziplines[i])];
        events := events + [Reactivated(ziplines[i])];
        i := i + 1;
      }
      assert ziplines[..i] == ziplines;
    }

    /** teleportPlayerToLastSpawnPoint: nothing without a spawn point; otherwise
        Adjust with the spawn yaw, start the teleport, and reactivate every zipline
        found, in order. */
    method TeleportPlayerToLastSpawnPoint(player: Body, ziplines: seq<nat>)
      modifies this`events, this`teleports
      ensures spawnPoint.None? ==> events == old(events) && teleports == old(teleports)
      ensures spawnPoint.Some? ==>
                events == old(events) + [Adjusted(spawnPoint.value.yaw), FadedOut(FadeDuration)] + Reactivations(ziplines) &&
                teleports == old(teleports) + [Teleport(player, spawnPoint.value.pose, AwaitingMove)]
    {
      if spawnPoint.Some? {
        AdjustAndTeleport(player, spawnPoint.value);
        ReactivateZipLines(ziplines);
      }
    }

    /** teleportPlayerToStart: nothing without a start point; otherwise Adjust with
        its yaw and start the teleport. */
    method TeleportPlayerToStart(player: Body)
      modifies this`events, this`teleports
      ensures gameStartPoint.None? ==> events == old(events) && teleports == old(teleports)
      ensures gameStartPoint.Some? ==>
                events == old(events) + [Adjusted(gameStartPoint.value.yaw), FadedOut(FadeDuration)] &&
                teleports == old(teleports) + [Teleport(player, gameStartPoint.value.pose, AwaitingMove)]
    {
      if gameStartPoint.Some? {
        AdjustAndTeleport(player, gameStartPoint.value);
      }
    }
  }
}
