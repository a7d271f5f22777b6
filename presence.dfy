/** Presences (bhaicord/models/presence.py): activity types, and the dicts an
    activity and a presence turn into. */
module Presences {
  import opened Wrappers
  import opened PyValues
  import PyDict

  datatype ActivityType = Game | Streaming | Listening | Watching | Custom | Competing

  function ActivityTypeValue(t: ActivityType): int
  {
    match t
    case Game => 0
    case Streaming => 1
    case Listening => 2
    case Watching => 3
    case Custom => 4
    case Competing => 5
  }

  /** An activity's `type`: an `ActivityTypes` member or whatever else was given
      (an int, usually). */
  datatype ActivityKind = Member(member: ActivityType) | Plain(v: Value)

  /** An activity object: its `name` attribute, absent until assigned, and its type. */
  datatype Activity = Activity(name: Option<Value>, kind: ActivityKind)

  /** The type `Activity()` is given when none is: `ActivityTypes.listening.value`. */
  const DEFAULT_KIND: ActivityKind := Plain(VInt(2))

  /** `Activity(*args, name=...)` as written. `@attr.s` without `auto_attribs`
      turns only `attr.ib` declarations into attributes, and the bare annotation
      `name: str` is not one, so the generated initialiser is
      `__init__(self, type=2)`: the first positional argument becomes the type, a
      second one or a `name` keyword raises TypeError, and `name` is never set. */
  function NewActivity(args: seq<ActivityKind>, nameKeyword: Option<Value>): (r: Result<Activity>)
    ensures r.Ok? <==> |args| <= 1 && nameKeyword.None?
    ensures r.Err? ==> r.error.kind == TypeError
    ensures r.Ok? ==> r.value.name.None?
    ensures r.Ok? && |args| == 1 ==> r.value.kind == args[0]
    ensures r.Ok? && |args| == 0 ==> r.value.kind == Plain(VInt(ActivityTypeValue(Listening)))
  {
    if |args| > 1 || nameKeyword.Some? then Fail(TypeError)
    else if |args| == 1 then Ok(Activity(None, args[0]))
    else Ok(Activity(None, DEFAULT_KIND))
  }

  /** `activity.name = name`: the object accepts the attribute afterwards. */
  function SetName(a: Activity, name: Value): (r: Activity)
    ensures r.name == Some(name) && r.kind == a.kind
  {
    a.(name := Some(name))
  }

  /** The type as an int: a member's value, anything else unchanged. */
  function TypeValue(k: ActivityKind): Value
  {
    match k
    case Member(t) => VInt(ActivityTypeValue(t))
    case Plain(v) => v
  }

  /** `activity.to_dict()` as written: reading `self.name` raises AttributeError
      when no name was assigned, and the type goes under the key "value". */
  function ActivityDict(a: Activity): (r: Result<seq<(string, Value)>>)
    ensures r.Ok? <==> a.name.Some?
    ensures r.Err? ==> r.error.kind == AttributeError
  {
    if a.name.None? then Fail(AttributeError)
    else Ok([("name", a.name.value), ("value", TypeValue(a.kind))])
  }

  /** As written, no activity dict has a "type" key, so the type is never sent as
      one; a member and its int give the same dict. */
  lemma ActivityDictHasNoType(a: Activity, t: ActivityType)
    ensures ActivityDict(a).Ok? ==>
      && PyDict.Lookup(ActivityDict(a).value, "type").None?
      && PyDict.Lookup(ActivityDict(a).value, "name") == a.name
      && PyDict.Lookup(ActivityDict(a).value, "value") == Some(TypeValue(a.kind))
    ensures ActivityDict(Activity(a.name, Member(t))) == ActivityDict(Activity(a.name, Plain(VInt(ActivityTypeValue(t)))))
  {
  }

  /** Whatever it was constructed with, a new activity cannot be turned into a
      dict, nor can a presence holding it; `Activity("Chess")` makes "Chess" the
      type, and `Activity(name="Chess")` raises. */
  lemma ConstructedActivityHasNoName(args: seq<ActivityKind>, status: Value)
    requires |args| <= 1
    ensures ActivityDict(NewActivity(args, None).value).Err?
    ensures ActivityDict(NewActivity(args, None).value).error.kind == AttributeError
    ensures PresenceDict(Presence(Some([NewActivity(args, None).value]), status)).Err?
    ensures NewActivity([Plain(VStr("Chess"))], None) == Ok(Activity(None, Plain(VStr("Chess"))))
    ensures NewActivity([], Some(VStr("Chess"))).Err?
  {
    var acts := [NewActivity(args, None).value];
    assert !acts[0].name.Some?;
  }

  /** `Activity(name, type=2)`: the initialiser `@attr.s` generates once `name`
      is declared with `attr.ib()`. */
  function NewActivityIntended(name: Value, kind: Option<ActivityKind>): (r: Activity)
    ensures r.name == Some(name)
    ensures kind.Some? ==> r.kind == kind.value
    ensures kind.None? ==> r.kind == Plain(VInt(ActivityTypeValue(Listening)))
  {
    Activity(Some(name), if kind.Some? then kind.value else DEFAULT_KIND)
  }

  /** `activity.to_dict()` with the type under "type". */
  function ActivityDictIntended(a: Activity): (r: Result<seq<(string, Value)>>)
    ensures r.Ok? <==> a.name.Some?
    ensures r.Err? ==> r.error.kind == AttributeError
  {
    if a.name.None? then Fail(AttributeError)
    else Ok([("name", a.name.value), ("type", TypeValue(a.kind))])
  }

  /** The corrected dict carries the name and the type's int under "type"; a new
      activity is "listening", 2. */
  lemma ActivityDictIntendedType(a: Activity, t: ActivityType, name: Value)
    ensures ActivityDictIntended(a).Ok? ==>
      && PyDict.Lookup(ActivityDictIntended(a).value, "name") == a.name
      && PyDict.Lookup(ActivityDictIntended(a).value, "type") == Some(TypeValue(a.kind))
    ensures PyDict.Lookup(ActivityDictIntended(Activity(Some(name), Member(t))).value, "type") == Some(VInt(ActivityTypeValue(t)))
    ensures PyDict.Lookup(ActivityDictIntended(NewActivityIntended(name, None)).value, "type") == Some(VInt(2))
  {
  }

  /** With the corrected initialiser, every activity built from a name turns into
      a dict holding that name and its type. */
  lemma IntendedActivityDict(name: Value, kind: Option<ActivityKind>)
    ensures var a := NewActivityIntended(name, kind);
      && ActivityDictIntended(a).Ok?
      && PyDict.Lookup(ActivityDictIntended(a).value, "name") == Some(name)
      && PyDict.Lookup(ActivityDictIntended(a).value, "type") == Some(TypeValue(a.kind))
  {
  }

  /** A presence: its activities (None by default) and its status. */
  datatype Presence = Presence(activities: Option<seq<Activity>>, status: Value)

  /** `Presence()` */
  function DefaultPresence(): (r: Presence)
    ensures r.activities.None? && r.status == VStr("online")
  {
    Presence(None, VStr("online"))
  }

  /** `[act.to_dict() for act in activities]`: the first activity without a name
      raises. */
  function ActivityDicts(acts: seq<Activity>): (r: Result<seq<Value>>)
    ensures r.Ok? <==> forall i :: 0 <= i < |acts| ==> acts[i].name.Some?
    ensures r.Err? ==> r.error.kind == AttributeError
    ensures r.Ok? ==> |r.value| == |acts| && forall i :: 0 <= i < |acts| ==> r.value[i] == VDict(ActivityDict(acts[i]).value)
  {
    if |acts| == 0 then Ok([])
    else
      var first :- ActivityDict(acts[0]);
      var rest :- ActivityDicts(acts[1..]);
      assert forall i :: 1 <= i < |acts| ==> acts[i] == acts[1..][i - 1];
      Ok([VDict(first)] + rest)
  }

  /** `presence.to_dict()`: iterating the default None raises TypeError, and an
      activity without a name raises AttributeError. */
  function PresenceDict(p: Presence): (r: Result<Value>)
    ensures r.Ok? <==> p.activities.Some? && forall i :: 0 <= i < |p.activities.value| ==> p.activities.value[i].name.Some?
    ensures p.activities.None? ==> r.Err? && r.error.kind == TypeError
    ensures p.activities.Some? && r.Err? ==> r.error.kind == AttributeError
  {
    if p.activities.None? then Fail(TypeError)
    else
      var items :- ActivityDicts(p.activities.value);
      Ok(VDict([("status", p.status), ("activities", VList(items))]))
  }

  /** A presence whose activities all have names gives its status and one dict
      per activity, in order; the default presence cannot be turned into a dict. */
  lemma PresenceDictActivities(p: Presence)
    ensures PresenceDict(DefaultPresence()).Err?
    ensures PresenceDict(p).Ok? ==>
      var d := PresenceDict(p).value;
      var acts := p.activities.value;
      && Index(d, "status") == Ok(p.status)
      && Index(d, "activities").Ok? && Index(d, "activities").value.VList?
      && var items := Index(d, "activities").value.items;
         |items| == |acts| && forall i :: 0 <= i < |acts| ==> items[i] == VDict(ActivityDict(acts[i]).value)
  {
    if PresenceDict(p).Ok? {
      var entries := PresenceDict(p).value.entries;
      PyDict.LookupAt(entries, 0);
      PyDict.LookupAt(entries, 1);
    }
  }
}
