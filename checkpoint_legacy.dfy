/** The older checkpoint manager (Assets/Scripts/CheckPoint/CheckpointManager.cs): the
    same spawn-point register and fade/move/fade teleport, without the zipline
    reactivation. */
module CheckpointLegacy {
  import opened Geometry
  import opened Checkpoint

  class CheckpointManager {
    var spawnPoint: Option<Marker>
    var gameStartPoint: Option<Marker>
    var teleports: seq<Teleport>
    var events: seq<Event>
    var faulted: bool

    constructor ()
      ensures spawnPoint.None? && gameStartPoint.None?
      ensures teleports == [] && events == [] && !faulted
    {
      spawnPoint, gameStartPoint := None, None;
      teleports, events := [], [];
      faulted := false;
    }

    /** Start: the start point is the object named "GameStart"; without one, reading
        its transform throws and the start point stays unset. */
    method Start(gameStart: Option<Marker>)
      modifies this`gameStartPoint, this`faulted
      ensures gameStartPoint == (if gameStart.Some? then gameStart else old(gameStartPoint))
      ensures faulted == (old(faulted) || gameStart.None?)
    {
      if gameStart.None? {
        faulted := true;
        return;
      }
      gameStartPoint := gameStart;
    }

    method UpdateSpawnPoint(newSpawnPoint: Option<Marker>)
      modifies this`spawnPoint
      ensures spawnPoint == newSpawnPoint
    {
      spawnPoint := newSpawnPoint;
    }

    method GetSpawnPoint() returns (r: Option<Marker>)
      ensures r == spawnPoint
    {
      r := spawnPoint;
    }

    /** SmoothTeleportation up to its first wait. */
    method SmoothTeleportation(player: Body, target: Pose)
      modifies this`events, this`teleports
      ensures events == old(events) + [FadedOut(FadeDuration)]
      ensures teleports == old(teleports) + [Teleport(player, target, AwaitingMove)]
      ensures events == old(events) + CallsSoFar(target, AwaitingMove)
    {
      events := events + [FadedOut(FadeDuration)];
      teleports := teleports + [Teleport(player, target, AwaitingMove)];
    }

    /** The end of a wait of coroutine `i`: first the move, then the fade-in. */
    method ResumeTeleport(i: nat)
      requires i < |teleports| && !teleports[i].phase.Finished?
      modifies this`events, this`teleports, teleports[i].player
      ensures old(teleports[i].phase).AwaitingMove? ==>
                old(teleports[i]).player.pose == old(teleports[i]).target &&
                events == old(events) + [Moved(old(teleports[i]).target)] &&
                teleports == old(teleports)[i := old(teleports[i]).(phase := AwaitingFadeIn)]
      ensures old(teleports[i].phase).AwaitingFadeIn? ==>
                unchanged(old(teleports[i]).player) &&
                events == old(events) + [FadedIn(FadeDuration)] &&
                teleports == old(teleports)[i := old(teleports[i]).(phase := Finished)]
      // the coroutine's record moves on by NextPhase and the log gains the one call
      // CallsSoFar adds for that phase
      ensures teleports == old(teleports)[i := old(teleports[i]).(phase := NextPhase(old(teleports[i].phase)))]
      ensures var t := old(teleports[i]);
              events == old(events) + CallsSoFar(t.target, NextPhase(t.phase))[|CallsSoFar(t.target, t.phase)|..]
    {
      var t := teleports[i];
      if t.phase.AwaitingMove? {
        t.player.pose := t.target;
        events := events + [Moved(t.target)];
        teleports := teleports[i := t.(phase := AwaitingFadeIn)];
      } else {
        events := events + [FadedIn(FadeDuration)];
        teleports := teleports[i := t.(phase := Finished)];
      }
    }

    /** teleportPlayerToLastSpawnPoint: nothing without a spawn point; otherwise
        Adjust with the spawn yaw and start the teleport. */
    method TeleportPlayerToLastSpawnPoint(player: Body)
      modifies this`events, this`teleports
      ensures spawnPoint.None? ==> events == old(events) && teleports == old(teleports)
      ensures spawnPoint.Some? ==>
                events == old(events) + [Adjusted(spawnPoint.value.yaw), FadedOut(FadeDuration)] &&
                teleports == old(teleports) + [Teleport(player, spawnPoint.value.pose, AwaitingMove)]
    {
      if spawnPoint.Some? {
        events := events + [Adjusted(spawnPoint.value.yaw)];
        SmoothTeleportation(player, spawnPoint.value.pose);
      }
    }

    /** teleportPlayerToStart: nothing without a start point; otherwise Adjust with
        its yaw and start the teleport. */
    method TeleportPlayerToStart(player: Body)
      modifies this`events, this`teleports
      ensures gameStartPoint.None? ==> events == old(events) && teleports == old(teleports)
      ensures gameStartPoint.Some? ==>
                events == old(events) + [Adjusted(gameStartPoint.value.yaw), FadedOut(FadeDuration)] &&
                teleports == old(teleports) + [Teleport(player, gameStartPoint.value.pose, AwaitingMove)]
    {
      if gameStartPoint.Some? {
        events := events + [Adjusted(gameStartPoint.value.yaw)];
        SmoothTeleportation(player, gameStartPoint.value.pose);
      }
    }
  }
}
