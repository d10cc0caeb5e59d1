/**
  The community views of the Django backend that change riders' memberships:
  joining and leaving a ride event with a participant limit, liking a post as a
  toggle, and the list of zones a rider can pick from.
*/
module RiderViews {
  import opened Wrappers
  import opened Strings
  import AuthViews

  /** A rider, by primary key. */
  type RiderId = nat

  // ---------------------------------------------------------------------------
  // Ride events

  /** Why `join` refuses, in the order it checks. */
  datatype JoinError = EventFull | AlreadyJoined

  /** Why `leave` refuses. */
  datatype LeaveError = NotJoined

  function JoinErrorText(e: JoinError): string {
    match e
    case EventFull => "Event is full"
    case AlreadyJoined => "Already joined this event"
  }

  function LeaveErrorText(e: LeaveError): string {
    match e
    case NotJoined => "Not joined this event"
  }

  const JoinedMessage := "Successfully joined the event"
  const LeftMessage := "Successfully left the event"

  /** Every answer of `join` and `leave` has its own text: the two refusals of `join`
      differ from each other and from its success message, and the refusal of `leave`
      differs from its success message. */
  lemma ReplyTextsDistinct(a: JoinError, b: JoinError)
    ensures JoinErrorText(a) == JoinErrorText(b) ==> a == b
    ensures JoinErrorText(a) != JoinedMessage
    ensures LeaveErrorText(NotJoined) != LeftMessage
  {
  }

  /** The refusal `join` gives `rider` for an event with these participants and this
      limit, or `None` when the rider may join. */
  function JoinRefusal(participants: set<RiderId>, maxParticipants: int, rider: RiderId): (r: Option<JoinError>)
    ensures r.None? <==> |participants| < maxParticipants && rider !in participants
    ensures r == Some(AlreadyJoined) ==> rider in participants && |participants| < maxParticipants
  {
    if |participants| >= maxParticipants then Some(EventFull)
    else if rider in participants then Some(AlreadyJoined)
    else None
  }

  /** The refusal `leave` gives `rider`, or `None` when the rider may leave. */
  function LeaveRefusal(participants: set<RiderId>, rider: RiderId): (r: Option<LeaveError>)
    ensures r.None? <==> rider in participants
  {
    if rider !in participants then Some(NotJoined) else None
  }

  /** A ride event's participant list, with the limit the organiser set. */
  class RideEvent {
    var participants: set<RiderId>
    var maxParticipants: int

    /** A new event has no participants yet. */
    constructor (maxParticipants: int)
      ensures participants == {} && this.maxParticipants == maxParticipants
    {
      participants := {};
      this.maxParticipants := maxParticipants;
    }

    /** The participant count the serializer reports. */
    function ParticipantCount(): (n: nat)
      reads this
      ensures n == 0 <==> participants == {}
    {
      |participants|
    }

    /** `RideEventViewSet.join`: adds `rider` unless the event is full or the rider
        has already joined, and reports the refusal otherwise. */
    method Join(rider: RiderId) returns (error: Option<JoinError>)
      modifies this
      ensures error == JoinRefusal(old(participants), old(maxParticipants), rider)
      ensures error.None? ==> participants == old(participants) + {rider}
      ensures error.None? ==> ParticipantCount() == old(ParticipantCount()) + 1 <= maxParticipants
      ensures error.Some? ==> participants == old(participants)
      ensures maxParticipants == old(maxParticipants)
    {
      if ParticipantCount() >= maxParticipants {
        return Some(EventFull);
      }
      if rider in participants {
        return Some(AlreadyJoined);
      }
      JoinStaysWithinLimit(participants, maxParticipants, rider);
      participants := participants + {rider};
      error := None;
    }

    /** `RideEventViewSet.leave`: removes `rider`, who must be a participant. */
    method Leave(rider: RiderId) returns (error: Option<LeaveError>)
      modifies this
      ensures error == LeaveRefusal(old(participants), rider)
      ensures error.None? ==> participants == old(participants) - {rider}
      ensures error.Some? ==> participants == old(participants)
      ensures maxParticipants == old(maxParticipants)
    {
      if rider !in participants {
        return Some(NotJoined);
      }
      participants := participants - {rider};
      error := None;
    }
  }

  /** A successful join adds exactly one participant and never takes the event past
      its limit. */
  lemma {:induction false} JoinStaysWithinLimit(participants: set<RiderId>, maxParticipants: int, rider: RiderId)
    requires JoinRefusal(participants, maxParticipants, rider).None?
    ensures |participants + {rider}| == |participants| + 1 <= maxParticipants
  {
    assert rider !in participants;
  }

  /** A full event is reported as full even to a rider who has already joined. */
  lemma FullBeforeAlreadyJoined(participants: set<RiderId>, maxParticipants: int, rider: RiderId)
    requires |participants| >= maxParticipants
    ensures JoinRefusal(participants, maxParticipants, rider) == Some(EventFull)
  {
  }

  /** Leaving right after a successful join restores the participant list, and
      joining right after a successful leave does so too unless the event filled up. */
  lemma JoinLeaveInverse(participants: set<RiderId>, maxParticipants: int, rider: RiderId)
    ensures JoinRefusal(participants, maxParticipants, rider).None? ==>
      LeaveRefusal(participants + {rider}, rider).None? && (participants + {rider}) - {rider} == participants
    ensures LeaveRefusal(participants, rider).None? && |participants| <= maxParticipants ==>
      JoinRefusal(participants - {rider}, maxParticipants, rider).None? && (participants - {rider}) + {rider} == participants
  {
    if LeaveRefusal(participants, rider).None? {
      assert |participants - {rider}| == |participants| - 1;
    }
  }

  // ---------------------------------------------------------------------------
  // Post likes

  /** The set after a like: the rider is removed when present and added otherwise. */
  function Toggled(likes: set<RiderId>, rider: RiderId): (r: set<RiderId>)
    ensures rider in r <==> rider !in likes
    ensures forall x :: x != rider ==> (x in r <==> x in likes)
    ensures |r| == if rider in likes then |likes| - 1 else |likes| + 1
  {
    if rider in likes then likes - {rider} else likes + {rider}
  }

  /** Liking twice leaves the likes as they were. */
  lemma ToggleTwice(likes: set<RiderId>, rider: RiderId)
    ensures Toggled(Toggled(likes, rider), rider) == likes
  {
  }

  /** A post's likes. */
  class Post {
    var likes: set<RiderId>

    constructor ()
      ensures likes == {}
    {
      likes := {};
    }

    /** `PostViewSet.like`: toggles the rider's like and answers whether the post is
        now liked by the rider and how many likes it has. */
    method Like(rider: RiderId) returns (liked: bool, likesCount: nat)
      modifies this
      ensures likes == Toggled(old(likes), rider)
      ensures liked <==> rider in likes
      ensures likesCount == |likes|
    {
      if rider in likes {
        likes := likes - {rider};
        liked := false;
      } else {
        likes := likes + {rider};
        liked := true;
      }
      likesCount := |likes|;
    }
  }

  // ---------------------------------------------------------------------------
  // Zones

  /** `a` comes no later than `b` in code-point order of their characters. */
  predicate NameBefore(a: string, b: string)
    decreases |a|
  {
    a == [] || (b != [] && (a[0] < b[0] || (a[0] == b[0] && NameBefore(a[1..], b[1..]))))
  }

  /** The zones are listed by name, as the zone table's default ordering lists them. */
  predicate ByName(zones: seq<AuthViews.Zone>) {
    forall i, j :: 0 <= i < j < |zones| ==> NameBefore(zones[i].name, zones[j].name)
  }

  /** `ZoneViewSet.queryset`: the active zones of the zone table, in the table's
      order (by name). */
  function ActiveZones(zones: seq<AuthViews.Zone>): (r: seq<AuthViews.Zone>)
    ensures forall z :: z in r <==> z in zones && z.isActive
    ensures forall z :: multiset(r)[z] == if z.isActive then multiset(zones)[z] else 0
    ensures IsSubsequence(r, zones)
  {
    Select(zones, (z: AuthViews.Zone) => z.isActive)
  }

  /** Filtering the name-ordered table keeps the listing in name order. */
  lemma ActiveZonesByName(zones: seq<AuthViews.Zone>)
    requires ByName(zones)
    ensures ByName(ActiveZones(zones))
  {
    SubsequenceByName(ActiveZones(zones), zones);
  }

  /** Deleting zones from a name-ordered list leaves it in name order. */
  lemma {:induction false} SubsequenceByName(r: seq<AuthViews.Zone>, s: seq<AuthViews.Zone>)
    requires IsSubsequence(r, s) && ByName(s)
    ensures ByName(r)
    decreases |s|
  {
    if r != [] {
      assert ByName(s[1..]) by {
        forall i, j | 0 <= i < j < |s[1..]| ensures NameBefore(s[1..][i].name, s[1..][j].name) {
          assert s[1..][i] == s[i + 1] && s[1..][j] == s[j + 1];
        }
      }
      if r[0] == s[0] && IsSubsequence(r[1..], s[1..]) {
        SubsequenceByName(r[1..], s[1..]);
        SubsequenceMembers(r[1..], s[1..]);
        forall i, j | 0 <= i < j < |r| ensures NameBefore(r[i].name, r[j].name) {
          assert r[j] == r[1..][j - 1];
          if i == 0 {
            assert r[j] in s[1..];
            var m :| 0 <= m < |s[1..]| && s[1..][m] == r[j];
            assert s[m + 1] == r[j];
          } else {
            assert r[i] == r[1..][i - 1];
          }
        }
      } else {
        SubsequenceByName(r, s[1..]);
      }
    }
  }

  /** Asking again for the active zones of the active zones changes nothing. */
  lemma ActiveZonesIdempotent(zones: seq<AuthViews.Zone>)
    ensures ActiveZones(ActiveZones(zones)) == ActiveZones(zones)
  {
    SelectIdempotent(zones, (z: AuthViews.Zone) => z.isActive);
  }
}
