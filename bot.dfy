/** The user-state handlers of bot.py: the in-memory `user_data` dict, kept
    in step with the user file by `save_user` after every change, and the
    scheduler's notification jobs. Clock readings (`time.time()`) are the
    parameter `now`, in seconds; the answers of remote lookups are
    parameters as well. */
module Bot {
  import opened Wrappers
  import opened Json
  import opened Coordinates
  import Cache
  import Users
  import Api
  import Gateway
  import Input

  /** `{'lat': ..., 'lon': ..., 'city': ...}`. */
  datatype Location = Location(lat: real, lon: real, city: string)

  /** `notification_data`. A missing key is `None`; a missing `enabled`
      reads as `False`, as `.get('enabled', False)` does. */
  datatype Notification = Notification(enabled: bool, location: Option<Location>,
                                       interval: Option<real>, nextRun: Option<real>)

  /** `{}`, what `.get('notification_data', {})` falls back to. */
  const NoNotification := Notification(false, None, None, None)

  /** `user_data[user_id]`: the main location and the notification settings. */
  datatype User = User(location: Option<Location>, notification: Option<Notification>)

  const NewUser := User(None, None)

  /** A scheduler job: runs every `hours` hours from `start`. */
  datatype Job = Job(hours: real, start: real)

  const DefaultInterval := 2.0
  const SecondsPerHour := 3600.0
  /** The delay before a job whose `next_run` has passed. */
  const LateDelay := 10.0
  /** Coordinates further apart than this count as a move (about 1 km). */
  const FarApart := 0.01

  /** A normalised coordinate as a float again: `n` hundredths of a degree. */
  function Hundredths(n: int): real { n as real / 100.0 }

  function NotificationOf(u: User): Notification {
    if u.notification.Some? then u.notification.value else NoNotification
  }

  /** `notif_data.get('interval', 2)`. */
  function IntervalOf(n: Notification): real {
    if n.interval.Some? then n.interval.value else DefaultInterval
  }

  /** What every handler keeps true of a user: notifications are only on
      with a place to report on, and an interval is always positive. */
  predicate Consistent(u: User) {
    var n := NotificationOf(u);
    (n.enabled ==> n.location.Some?) && (n.interval.Some? ==> n.interval.value > 0.0)
  }

  predicate AllConsistent(users: map<int, User>) {
    forall id :: id in users ==> Consistent(users[id])
  }

  /** Every user in the file is in memory, and every user in memory is
      what the file holds for them, except a user that `/start` or the
      notifications menu created (`{'location': None}`) and that no
      handler has saved yet. */
  ghost predicate Synced(users: map<int, User>, file: Users.UserFile<User>) {
    && (forall id :: id in users ==>
          Users.UserOf(file, id) == Some(users[id]) || (Users.UserOf(file, id).None? && users[id] == NewUser))
    && (forall id :: Users.UserOf(file, id).Some? ==> id in users)
  }

  /** `user_data` as the startup load leaves it: exactly the users of the
      file, under their integer ids. */
  ghost predicate Loaded(users: map<int, User>, file: Users.UserFile<User>) {
    forall id :: Users.UserOf(file, id) == (if id in users then Some(users[id]) else None)
  }

  lemma SavedStaysSynced(users: map<int, User>, file: Users.UserFile<User>, id: int, u: User)
    requires Synced(users, file)
    ensures Synced(users[id := u], Users.SavedUser(file, id, u))
  {
    var file' := Users.SavedUser(file, id, u);
    forall k | k in users[id := u]
      ensures Users.UserOf(file', k) == Some(users[id := u][k])
           || (Users.UserOf(file', k).None? && users[id := u][k] == NewUser)
    {
      if k == id {
        Users.SaveThenLoad(file, id, u, id + 1);
      } else {
        Users.SaveThenLoad(file, id, u, k);
      }
    }
    forall k | Users.UserOf(file', k).Some?
      ensures k in users[id := u]
    {
      if k != id {
        Users.SaveThenLoad(file, id, u, k);
      }
    }
  }

  // ---------------------------------------------------------------------
  // cmd_start / notifications_menu
  // ---------------------------------------------------------------------

  /** `user_data` after `/start` or the notifications menu: an unknown
      user is added as `{'location': None}`, in memory only. */
  function WithUser(users: map<int, User>, id: int): map<int, User> {
    if id in users then users else users[id := NewUser]
  }

  /** A user met for the first time through the notifications menu cannot
      switch notifications on before a city is set, and can set that city;
      with it set, the switch goes on at the default interval. */
  lemma {:induction false} FirstVisit(users: map<int, User>, id: int, place: Location, now: real)
    requires id !in users
    ensures Toggled(WithUser(users, id), id, now) == NeedCity
    ensures CitySet(WithUser(users, id), id, Some(place))
            == Some(User(None, Some(NoNotification.(location := Some(place)))))
    ensures var u := CitySet(WithUser(users, id), id, Some(place)).value;
      Toggled(WithUser(users, id)[id := u], id, now)
        == Switched(User(None, Some(Notification(true, Some(place), Some(DefaultInterval),
                                                 Some(now + DefaultInterval * SecondsPerHour)))), true)
  {
  }

  // ---------------------------------------------------------------------
  // update_user_location
  // ---------------------------------------------------------------------

  /** The stored location whose cache `update_user_location` clears: the
      old one, when the new normalised point is more than `FarApart` away
      from it on some axis. */
  function StaleLocation(users: map<int, User>, id: int, lat: real, lon: real): Option<Location> {
    var c := Normalize(lat, lon);
    if id in users && users[id].location.Some? then
      var was := users[id].location.value;
      if Abs(was.lat - Hundredths(c.lat)) > FarApart || Abs(was.lon - Hundredths(c.lon)) > FarApart
      then Some(was) else None
    else None
  }

  /** `user_data` after `update_user_location`: the user (created if new)
      gets the normalised point and the city. */
  function Relocated(users: map<int, User>, id: int, lat: real, lon: real, city: string): map<int, User> {
    var c := Normalize(lat, lon);
    var u := if id in users then users[id] else NewUser;
    users[id := u.(location := Some(Location(Hundredths(c.lat), Hundredths(c.lon), city)))]
  }

  /** The stored point lies on the grid: normalising it again gives the
      same cell. Notification settings and other users are untouched. */
  lemma RelocatedStoresCell(users: map<int, User>, id: int, lat: real, lon: real, city: string, other: int)
    requires other != id
    ensures var r := Relocated(users, id, lat, lon, city);
      && id in r && r[id].location.Some?
      && Normalize(r[id].location.value.lat, r[id].location.value.lon) == Normalize(lat, lon)
      && r[id].location.value.city == city
      && (id in users ==> r[id].notification == users[id].notification)
      && (other in r <==> other in users)
      && (other in users ==> r[other] == users[other])
  {
    var c := Normalize(lat, lon);
    Round2OfCell(c.lat);
    Round2OfCell(c.lon);
  }

  lemma HundredthsApart(m: int, k: int)
    ensures Abs(Hundredths(m) - Hundredths(k)) > FarApart <==> m - k > 1 || k - m > 1
  {
    assert Hundredths(m) - Hundredths(k) == (m - k) as real / 100.0;
  }

  /** For a location stored by `update_user_location` (a grid point), the
      old cache is cleared exactly when the new cell is more than one
      hundredth of a degree away on some axis: a move to a neighbouring
      cell keeps it. */
  lemma StaleIffFar(users: map<int, User>, id: int, m: int, n: int, city: string, lat: real, lon: real)
    requires id in users && users[id].location == Some(Location(Hundredths(m), Hundredths(n), city))
    ensures var c := Normalize(lat, lon);
      StaleLocation(users, id, lat, lon).Some? <==>
        (c.lat - m > 1 || m - c.lat > 1 || c.lon - n > 1 || n - c.lon > 1)
    ensures StaleLocation(users, id, lat, lon).Some? ==>
      StaleLocation(users, id, lat, lon) == users[id].location
  {
    var c := Normalize(lat, lon);
    HundredthsApart(m, c.lat);
    HundredthsApart(n, c.lon);
  }

  /** Sending the same point again never clears the cache. */
  lemma RelocateTwiceKeepsCache(users: map<int, User>, id: int, lat: real, lon: real, city: string)
    ensures StaleLocation(Relocated(users, id, lat, lon, city), id, lat, lon).None?
  {
    var c := Normalize(lat, lon);
    var r := Relocated(users, id, lat, lon, city);
    StaleIffFar(r, id, c.lat, c.lon, city, lat, lon);
  }

  // ---------------------------------------------------------------------
  // schedule_user_notification
  // ---------------------------------------------------------------------

  /** The job `schedule_user_notification` adds for a user, if any: every
      `interval` hours, first at `next_run` when that is still ahead and
      ten seconds from now otherwise. */
  function JobFor(u: User, now: real): Option<Job> {
    var n := NotificationOf(u);
    if !n.enabled then None
    else
      var next := if n.nextRun.Some? then n.nextRun.value else 0.0;
      Some(Job(IntervalOf(n), if next > now then next else now + LateDelay))
  }

  /** The jobs after `schedule_user_notification(user_id)`: the user's old
      job is removed, and a new one added when there is one. */
  function Scheduled(jobs: map<int, Job>, users: map<int, User>, id: int, now: real): map<int, Job> {
    var rest := jobs - {id};
    if id in users && JobFor(users[id], now).Some? then rest[id := JobFor(users[id], now).value] else rest
  }

  /** A job always starts in the future, and for a consistent user runs at
      a positive interval; users without notifications on have none. */
  lemma JobShape(u: User, now: real)
    ensures JobFor(u, now).Some? <==> NotificationOf(u).enabled
    ensures JobFor(u, now).Some? ==> JobFor(u, now).value.start > now
    ensures JobFor(u, now).Some? && Consistent(u) ==> JobFor(u, now).value.hours > 0.0
  {
  }

  /** Scheduling twice is scheduling once, and other users' jobs stay. */
  lemma {:induction false} ScheduleIdempotent(jobs: map<int, Job>, users: map<int, User>, id: int, now: real, other: int)
    requires other != id
    ensures Scheduled(Scheduled(jobs, users, id, now), users, id, now) == Scheduled(jobs, users, id, now)
    ensures other in Scheduled(jobs, users, id, now) <==> other in jobs
    ensures other in jobs ==> Scheduled(jobs, users, id, now)[other] == jobs[other]
  {
    var once := Scheduled(jobs, users, id, now);
    assert once - {id} == jobs - {id};
  }

  // ---------------------------------------------------------------------
  // toggle_notifications
  // ---------------------------------------------------------------------

  /** How `toggle_notifications` ends: a `KeyError` for an unknown user,
      a refusal when there is no place to report on, or the switch. */
  datatype Toggle = NoUser | NeedCity | Switched(user: User, on: bool)

  function Toggled(users: map<int, User>, id: int, now: real): Toggle {
    if id !in users then NoUser
    else
      var u := users[id];
      var n := NotificationOf(u);
      if n.enabled then Switched(u.(notification := Some(n.(enabled := false))), false)
      else
        var place := if n.location.Some? then n.location else u.location;
        if place.None? then NeedCity
        else
          var hours := IntervalOf(n);
          Switched(u.(notification := Some(n.(enabled := true, location := place, interval := Some(hours),
                                                nextRun := Some(now + hours * SecondsPerHour)))), true)
  }

  /** Turning notifications on needs a place (the notification city, else
      the main location); the first notification then comes one interval
      later, not at once; everything but the notification settings stays. */
  lemma ToggleOn(users: map<int, User>, id: int, now: real)
    requires id in users && Consistent(users[id]) && !NotificationOf(users[id]).enabled
    ensures Toggled(users, id, now) == NeedCity
      <==> NotificationOf(users[id]).location.None? && users[id].location.None?
    ensures Toggled(users, id, now).Switched? ==>
      var u := Toggled(users, id, now).user;
      var h := IntervalOf(NotificationOf(users[id]));
      && Toggled(users, id, now).on
      && u.location == users[id].location
      && NotificationOf(u).enabled && NotificationOf(u).location.Some?
      && JobFor(u, now) == Some(Job(h, now + h * SecondsPerHour))
      && h > 0.0
  {
  }

  /** Turning them off again right after keeps the place, interval and
      timer chosen when turning on, and drops the job. */
  lemma ToggleTwice(users: map<int, User>, id: int, now: real, later: real)
    requires id in users && Toggled(users, id, now).Switched? && Toggled(users, id, now).on
    ensures var t := Toggled(users, id, now);
      var back := Toggled(users[id := t.user], id, later);
      && back == Switched(t.user.(notification := Some(NotificationOf(t.user).(enabled := false))), false)
      && back.user.location == users[id].location
      && JobFor(back.user, later) == None
  {
  }

  // ---------------------------------------------------------------------
  // set_notification_interval_finish
  // ---------------------------------------------------------------------

  /** How the interval dialog ends: the text is not a positive number, the
      user is unknown (`KeyError`), or the interval is stored. */
  datatype IntervalReply = BadNumber | NoUserForInterval | IntervalSaved(user: User, hours: real)

  /** The dialog's outcome for the text as `Input.ParseInterval` read it. */
  function IntervalSet(users: map<int, User>, id: int, parsed: Input.IntervalInput, now: real): IntervalReply {
    match parsed
    case Rejected => BadNumber
    case Hours(h) =>
      if id !in users then NoUserForInterval
      else
        var u := users[id];
        var n := NotificationOf(u);
        IntervalSaved(u.(notification := Some(n.(interval := Some(h), nextRun := Some(now + h * SecondsPerHour)))), h)
  }

  /** A new interval restarts the timer: the next notification is one new
      interval from now, whether or not the old one was due sooner; the
      on/off switch and the place are kept. */
  lemma IntervalRestartsTimer(users: map<int, User>, id: int, parsed: Input.IntervalInput, now: real)
    requires id in users && (parsed.Hours? ==> parsed.hours > 0.0)
    ensures IntervalSet(users, id, parsed, now) == BadNumber <==> parsed.Rejected?
    ensures IntervalSet(users, id, parsed, now).IntervalSaved? ==>
      var r := IntervalSet(users, id, parsed, now);
      var n := NotificationOf(r.user);
      && r.hours > 0.0
      && n.interval == Some(r.hours)
      && n.enabled == NotificationOf(users[id]).enabled
      && n.location == NotificationOf(users[id]).location
      && r.user.location == users[id].location
      && (n.enabled ==> JobFor(r.user, now) == Some(Job(r.hours, now + r.hours * SecondsPerHour)))
  {
  }

  // ---------------------------------------------------------------------
  // set_notification_city_finish
  // ---------------------------------------------------------------------

  /** The user after `set_notification_city_finish`, or `None` when the
      city was not found (`found` is `None`: `get_coordinates` raised) or
      the user is unknown; both end in the same "not found" reply. */
  function CitySet(users: map<int, User>, id: int, found: Option<Location>): Option<User> {
    if found.None? || id !in users then None
    else
      var u := users[id];
      Some(u.(notification := Some(NotificationOf(u).(location := found))))
  }

  // ---------------------------------------------------------------------
  // Every handler keeps users consistent
  // ---------------------------------------------------------------------

  lemma RelocateKeepsConsistent(users: map<int, User>, id: int, lat: real, lon: real, city: string)
    requires AllConsistent(users)
    ensures AllConsistent(Relocated(users, id, lat, lon, city))
  {
  }

  lemma ToggleKeepsConsistent(users: map<int, User>, id: int, now: real)
    requires AllConsistent(users) && Toggled(users, id, now).Switched?
    ensures AllConsistent(users[id := Toggled(users, id, now).user])
  {
  }

  lemma IntervalKeepsConsistent(users: map<int, User>, id: int, parsed: Input.IntervalInput, now: real)
    requires AllConsistent(users) && (parsed.Hours? ==> parsed.hours > 0.0)
    requires IntervalSet(users, id, parsed, now).IntervalSaved?
    ensures AllConsistent(users[id := IntervalSet(users, id, parsed, now).user])
  {
  }

  lemma CityKeepsConsistent(users: map<int, User>, id: int, found: Option<Location>)
    requires AllConsistent(users) && CitySet(users, id, found).Some?
    ensures AllConsistent(users[id := CitySet(users, id, found).value])
  {
  }

  // ---------------------------------------------------------------------
  // send_weather_notification
  // ---------------------------------------------------------------------

  /** The weather fields the message is built from: `['main']['temp']`,
      `['weather'][0]['description']` (a string, since it is
      capitalised) and `['wind']['speed']`. */
  function MessageFields(data: Json): Result<(Json, string, Json), Fault> {
    var main :- Field(data, "main");
    var temp :- Field(main, "temp");
    var weather :- Field(data, "weather");
    var first :- Item(weather, 0);
    var description :- Field(first, "description");
    var wind :- Field(data, "wind");
    var speed :- Field(wind, "speed");
    if description.Str? then Ok((temp, description.s, speed)) else Err(TypeError)
  }

  /** Where a notification run reports on, when it goes ahead at all: the
      user is known, notifications are on and a place is set. */
  function Due(users: map<int, User>, id: int): Option<Location> {
    if id !in users then None
    else
      var n := NotificationOf(users[id]);
      if n.enabled then n.location else None
  }

  /** What a run does once the weather lookup has answered: the user it
      stored (with `next_run` advanced) and whether the message went out.
      A failed lookup raises before anything is stored. */
  datatype Sent = Sent(user: Option<User>, delivered: bool)

  function Notify(users: map<int, User>, id: int, now: real, weather: Result<Json, Gateway.Failure>): Sent {
    if Due(users, id).None? then Sent(None, false)
    else match weather
      case Err(_) => Sent(None, false)
      case Ok(data) =>
        var n := NotificationOf(users[id]);
        Sent(Some(users[id].(notification := Some(n.(nextRun := Some(now + IntervalOf(n) * SecondsPerHour))))),
             MessageFields(data).Ok?)
  }

  /** A run for a user with notifications off stores nothing; a run whose
      weather lookup fails stores nothing; otherwise only `next_run`
      moves, to one interval from now, and a message goes out exactly when
      the weather carries its fields. */
  lemma NotifyEffects(users: map<int, User>, id: int, now: real, weather: Result<Json, Gateway.Failure>)
    requires id in users
    ensures var s := Notify(users, id, now, weather);
      && (!NotificationOf(users[id]).enabled ==> s == Sent(None, false))
      && (s.user.Some? <==> Due(users, id).Some? && weather.Ok?)
      && (s.delivered <==> s.user.Some? && MessageFields(weather.value).Ok?)
      && (s.user.Some? ==>
            && s.user.value.location == users[id].location
            && NotificationOf(s.user.value)
               == NotificationOf(users[id]).(nextRun := Some(now + IntervalOf(NotificationOf(users[id])) * SecondsPerHour)))
  {
  }

  // ---------------------------------------------------------------------
  // The bot's state
  // ---------------------------------------------------------------------

  class Bot {
    /** `user_data`. */
    var users: map<int, User>
    /** The scheduler's notification jobs, by user. */
    var jobs: map<int, Job>
    const store: Users.UserFileStore<User>
    const cache: Cache.CacheDir

    ghost predicate Valid()
      reads this, store
    {
      Synced(users, store.file)
    }

    /** Start-up: `user_data` is loaded from the user file (`loaded`, the
        file's users under `int(user_id_str)`); no job is scheduled yet. */
    constructor (store: Users.UserFileStore<User>, cache: Cache.CacheDir, loaded: map<int, User>)
      requires Loaded(loaded, store.file)
      ensures this.store == store && this.cache == cache
      ensures users == loaded && jobs == map[]
      ensures Valid()
    {
      this.store := store;
      this.cache := cache;
      users := loaded;
      jobs := map[];
    }

    /** `cmd_start` and `notifications_menu`: the user is created in
        memory if unknown; the menu shows whether notifications are on. */
    method InitUser(id: int) returns (enabled: bool)
      requires Valid()
      modifies this
      ensures users == WithUser(old(users), id)
      ensures enabled == NotificationOf(users[id]).enabled
      ensures store.file == old(store.file) && jobs == old(jobs)
      ensures AllConsistent(old(users)) ==> AllConsistent(users)
      ensures Valid()
    {
      if id !in users {
        users := users[id := NewUser];
      }
      var n := users[id].notification;
      enabled := if n.Some? then n.value.enabled else false;
    }

    /** `update_user_location(user_id, lat, lon, city)`. */
    method UpdateUserLocation(id: int, lat: real, lon: real, city: string)
      requires Valid()
      modifies this, store, cache
      ensures users == Relocated(old(users), id, lat, lon, city)
      ensures store.file == Users.SavedUser(old(store.file), id, users[id])
      ensures cache.files == match StaleLocation(old(users), id, lat, lon)
                             case Some(was) => old(cache.files) - Cache.ClearedPaths(was.lat, was.lon)
                             case None => old(cache.files)
      ensures jobs == old(jobs)
      ensures Valid()
      ensures AllConsistent(old(users)) ==> AllConsistent(users)
    {
      var c := Normalize(lat, lon);
      var nlat, nlon := Hundredths(c.lat), Hundredths(c.lon);
      if id in users && users[id].location.Some? {
        var was := users[id].location.value;
        if Abs(was.lat - nlat) > FarApart || Abs(was.lon - nlon) > FarApart {
          cache.ClearUserCache(was.lat, was.lon);
        }
      }
      var u := if id in users then users[id] else NewUser;
      u := u.(location := Some(Location(nlat, nlon, city)));
      SavedStaysSynced(users, store.file, id, u);
      if AllConsistent(users) {
        RelocateKeepsConsistent(users, id, lat, lon, city);
      }
      users := users[id := u];
      store.SaveUser(id, u);
    }

    /** `schedule_user_notification(user_id)`. */
    method ScheduleUserNotification(id: int, now: real)
      modifies this
      ensures jobs == Scheduled(old(jobs), users, id, now)
      ensures users == old(users)
    {
      if id in jobs {
        jobs := jobs - {id};
      }
      if id !in users {
        return;
      }
      var n := NotificationOf(users[id]);
      if !n.enabled {
        return;
      }
      var hours := if n.interval.Some? then n.interval.value else DefaultInterval;
      var next := if n.nextRun.Some? then n.nextRun.value else 0.0;
      var start := if next > now then next else now + LateDelay;
      jobs := jobs[id := Job(hours, start)];
    }

    /** `toggle_notifications`. */
    method ToggleNotifications(id: int, now: real) returns (r: Toggle)
      requires Valid()
      modifies this, store
      ensures r == Toggled(old(users), id, now)
      ensures users == if r.Switched? then old(users)[id := r.user] else old(users)
      ensures store.file == if r.Switched? then Users.SavedUser(old(store.file), id, r.user) else old(store.file)
      ensures jobs == if r.Switched? then Scheduled(old(jobs), users, id, now) else old(jobs)
      ensures Valid()
      ensures AllConsistent(old(users)) ==> AllConsistent(users)
    {
      if id !in users {
        return NoUser;
      }
      var u := users[id];
      var n := NotificationOf(u);
      var on := !n.enabled;
      if on {
        if n.location.None? {
          if u.location.Some? {
            n := n.(location := u.location);
          } else {
            return NeedCity;
          }
        }
        var hours := if n.interval.Some? then n.interval.value else DefaultInterval;
        n := n.(enabled := true, interval := Some(hours), nextRun := Some(now + hours * SecondsPerHour));
      } else {
        n := n.(enabled := false);
      }
      u := u.(notification := Some(n));
      r := Switched(u, on);
      assert r == Toggled(users, id, now);
      SavedStaysSynced(users, store.file, id, u);
      if AllConsistent(users) {
        ToggleKeepsConsistent(users, id, now);
      }
      users := users[id := u];
      store.SaveUser(id, u);
      ScheduleUserNotification(id, now);
    }

    /** `set_notification_interval_finish`. */
    method SetNotificationInterval(id: int, text: string, now: real) returns (r: IntervalReply)
      requires Valid()
      modifies this, store
      ensures r == IntervalSet(old(users), id, Input.ParseInterval(text), now)
      ensures users == if r.IntervalSaved? then old(users)[id := r.user] else old(users)
      ensures store.file == if r.IntervalSaved? then Users.SavedUser(old(store.file), id, r.user) else old(store.file)
      ensures jobs == if r.IntervalSaved? && NotificationOf(r.user).enabled
                      then Scheduled(old(jobs), users, id, now) else old(jobs)
      ensures Valid()
      ensures AllConsistent(old(users)) ==> AllConsistent(users)
    {
      var parsed := Input.ParseInterval(text);
      r := StoreInterval(id, parsed, now);
    }

    /** The rest of `set_notification_interval_finish`, once the text is
        read: a refusal, a `KeyError`, or the new interval stored with the
        timer restarted, and the job rescheduled when notifications are on. */
    method StoreInterval(id: int, parsed: Input.IntervalInput, now: real) returns (r: IntervalReply)
      requires Valid() && (parsed.Hours? ==> parsed.hours > 0.0)
      modifies this, store
      ensures r == IntervalSet(old(users), id, parsed, now)
      ensures users == if r.IntervalSaved? then old(users)[id := r.user] else old(users)
      ensures store.file == if r.IntervalSaved? then Users.SavedUser(old(store.file), id, r.user) else old(store.file)
      ensures jobs == if r.IntervalSaved? && NotificationOf(r.user).enabled
                      then Scheduled(old(jobs), users, id, now) else old(jobs)
      ensures Valid()
      ensures AllConsistent(old(users)) ==> AllConsistent(users)
    {
      if parsed.Rejected? {
        return BadNumber;
      }
      if id !in users {
        return NoUserForInterval;
      }
      var u := users[id];
      var n := NotificationOf(u);
      n := n.(interval := Some(parsed.hours), nextRun := Some(now + parsed.hours * SecondsPerHour));
      u := u.(notification := Some(n));
      r := IntervalSaved(u, parsed.hours);
      assert r == IntervalSet(users, id, parsed, now);
      SavedStaysSynced(users, store.file, id, u);
      if AllConsistent(users) {
        IntervalKeepsConsistent(users, id, parsed, now);
      }
      users := users[id := u];
      store.SaveUser(id, u);
      if n.enabled {
        ScheduleUserNotification(id, now);
      }
    }

    /** `set_notification_city_finish`, given what `get_coordinates`
        answered. */
    method SetNotificationCity(id: int, found: Option<Location>, now: real) returns (r: Option<User>)
      requires Valid()
      modifies this, store
      ensures r == CitySet(old(users), id, found)
      ensures users == if r.Some? then old(users)[id := r.value] else old(users)
      ensures store.file == if r.Some? then Users.SavedUser(old(store.file), id, r.value) else old(store.file)
      ensures jobs == if r.Some? && NotificationOf(r.value).enabled
                      then Scheduled(old(jobs), users, id, now) else old(jobs)
      ensures Valid()
      ensures AllConsistent(old(users)) ==> AllConsistent(users)
    {
      if found.None? || id !in users {
        return None;
      }
      var u := users[id];
      var n := NotificationOf(u).(location := found);
      u := u.(notification := Some(n));
      r := Some(u);
      SavedStaysSynced(users, store.file, id, u);
      if AllConsistent(users) {
        CityKeepsConsistent(users, id, found);
      }
      users := users[id := u];
      // Rescheduled before and after saving; the second run changes nothing.
      if n.enabled {
        ScheduleUserNotification(id, now);
      }
      store.SaveUser(id, u);
      if n.enabled {
        ScheduleUserNotification(id, now);
        ScheduleIdempotent(old(jobs), users, id, now, id + 1);
      }
    }

    /** `send_weather_notification(user_id)`, the weather lookup going
        through the cache. */
    method SendWeatherNotification(id: int, now: real, fetched: Result<Json, Api.ApiError>) returns (delivered: bool)
      requires Valid()
      modifies this, store, cache
      ensures Due(old(users), id).None? ==>
        !delivered && users == old(users) && store.file == old(store.file) && cache.files == old(cache.files)
      ensures Due(old(users), id).Some? ==>
        var place := Due(old(users), id).value;
        var w := Gateway.Weather(old(cache.files), place.lat, place.lon, None, now, fetched);
        var s := Notify(old(users), id, now, w.result);
        && cache.files == w.files
        && delivered == s.delivered
        && users == (if s.user.Some? then old(users)[id := s.user.value] else old(users))
        && store.file == (if s.user.Some? then Users.SavedUser(old(store.file), id, s.user.value) else old(store.file))
      ensures jobs == old(jobs)
      ensures Valid()
      ensures AllConsistent(old(users)) ==> AllConsistent(users)
    {
      if id !in users {
        return false;
      }
      var u := users[id];
      var n := NotificationOf(u);
      if !n.enabled || n.location.None? {
        return false;
      }
      var place := n.location.value;
      var w := Gateway.GetWeatherByCoordinates(cache, place.lat, place.lon, None, now, fetched);
      if w.Err? {
        return false;
      }
      var hours := if n.interval.Some? then n.interval.value else DefaultInterval;
      u := u.(notification := Some(n.(nextRun := Some(now + hours * SecondsPerHour))));
      assert Notify(users, id, now, w) == Sent(Some(u), MessageFields(w.value).Ok?);
      SavedStaysSynced(users, store.file, id, u);
      users := users[id := u];
      store.SaveUser(id, u);
      var fields := MessageFields(w.value);
      delivered := fields.Ok?;
    }
  }
}
