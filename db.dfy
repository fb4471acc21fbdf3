/** Database helpers (`db.rs`): the SQLite URL, the joined appointment lookup and seeding. */
module Db {
  import opened Wrappers
  import opened Text
  import opened Models
  import opened State

  // ---------------------------------------------------------------------------------------
  // ensure_sqlite_dir

  /** Drops trailing '/' but keeps a lone root "/". */
  function StripTrailingSlashes(p: string): (r: string)
    ensures |r| <= |p| && r == p[..|r|]
    ensures p != [] ==> r != []
    ensures |r| > 1 ==> r[|r| - 1] != '/'
  {
    if |p| > 1 && p[|p| - 1] == '/' then StripTrailingSlashes(p[..|p| - 1]) else p
  }

  /** Index of the last '/' of `p`, if any. */
  function LastSlash(p: string): (r: Option<nat>)
    ensures r.Some? ==> r.value < |p| && p[r.value] == '/'
    ensures r.Some? ==> forall k :: r.value < k < |p| ==> p[k] != '/'
    ensures r.None? ==> '/' !in p
  {
    if p == [] then None
    else if p[|p| - 1] == '/' then Some(|p| - 1)
    else
      var r := LastSlash(p[..|p| - 1]);
      assert r.None? ==> p == p[..|p| - 1] + [p[|p| - 1]];
      r
  }

  /** `Path::parent` for paths without "." components: None for "" and for the root,
      "" for a bare file name, otherwise the path up to its last separator. */
  function ParentDir(p: string): (r: Option<string>)
    ensures r.Some? ==> StartsWith(p, r.value)
  {
    var q := StripTrailingSlashes(p);
    if q == [] || q == "/" then None
    else match LastSlash(q)
      case None => Some([])
      case Some(i) => Some(if i == 0 then "/" else StripTrailingSlashes(q[..i]))
  }

  /** The parent of `dir/name` is `dir`, for a plain file name and a directory written
      without a trailing separator. */
  lemma ParentOfJoin(dir: string, name: string)
    requires dir != [] && dir[|dir| - 1] != '/'
    requires name != [] && '/' !in name
    ensures ParentDir(dir + "/" + name) == Some(dir)
  {
    var p := dir + "/" + name;
    assert StripTrailingSlashes(p) == p;
    assert p[|dir|] == '/' && p[|dir|] in p;
    forall k | |dir| < k < |p| ensures p[k] != '/' {
      assert p[k] == name[k - |dir| - 1];
    }
    assert LastSlash(p) == Some(|dir|);
    assert p[..|dir|] == dir;
  }

  /** The path part of a SQLite URL: after "sqlite://" or else "sqlite:", cut at the first '?'. */
  function UrlPath(url: string): (r: Option<string>)
    ensures r.None? <==> !StartsWith(url, "sqlite:")
    ensures StartsWith(url, "sqlite://") ==> r == Some(BeforeFirst(url[9..], '?'))
    ensures StartsWith(url, "sqlite:") && !StartsWith(url, "sqlite://") ==>
      r == Some(BeforeFirst(url[7..], '?'))
  {
    match StripPrefix(url, "sqlite://")
    case Some(rest) => Some(BeforeFirst(rest, '?'))
    case None =>
      match StripPrefix(url, "sqlite:")
      case Some(rest) => Some(BeforeFirst(rest, '?'))
      case None => None
  }

  /** `ensure_sqlite_dir`: the directory handed to `create_dir_all`, or None when the URL is
      left alone (not SQLite, in memory, empty, or a path without parent). */
  function EnsureSqliteDir(url: string): (r: Option<string>)
    ensures r.Some? ==> StartsWith(url, "sqlite:")
    ensures r.Some? ==> UrlPath(url).Some? && UrlPath(url).value != ":memory:" && UrlPath(url).value != []
  {
    match UrlPath(url)
    case None => None
    case Some(path) =>
      if path == ":memory:" || path == [] then None
      else ParentDir(StripPrefix(path, "file:").UnwrapOr(path))
  }

  /** Cutting at the first separator skips a prefix that holds none. */
  lemma {:induction false} BeforeFirstPast(p: string, sep: char, rest: string)
    requires sep !in p
    ensures BeforeFirst(p + rest, sep) == p + BeforeFirst(rest, sep)
  {
    if p != [] {
      assert (p + rest)[0] == p[0] && p[0] != sep;
      assert (p + rest)[1..] == p[1..] + rest;
      assert sep !in p[1..];
      BeforeFirstPast(p[1..], sep, rest);
      assert BeforeFirst(p + rest, sep) == [p[0]] + (p[1..] + BeforeFirst(rest, sep));
      assert [p[0]] + (p[1..] + BeforeFirst(rest, sep)) == ([p[0]] + p[1..]) + BeforeFirst(rest, sep);
      assert [p[0]] + p[1..] == p;
    } else {
      assert p + rest == rest;
    }
  }

  lemma PrefixOfConcat(prefix: string, rest: string)
    ensures StartsWith(prefix + rest, prefix) && (prefix + rest)[|prefix|..] == rest
  {
    assert (prefix + rest)[..|prefix|] == prefix;
  }

  /** The path of a SQLite URL is what follows the prefix, cut at the first '?'; the
      "sqlite://" form is tried first, so its slashes never reach the path. */
  lemma UrlPathOf(rest: string)
    ensures UrlPath("sqlite://" + rest) == Some(BeforeFirst(rest, '?'))
    ensures !StartsWith(rest, "//") ==> UrlPath("sqlite:" + rest) == Some(BeforeFirst(rest, '?'))
  {
    PrefixOfConcat("sqlite://", rest);
    PrefixOfConcat("sqlite:", rest);
  }

  /** Everything from the first '?' on is ignored. */
  lemma QueryIgnored(path: string, query: string)
    requires '?' !in path
    ensures UrlPath("sqlite://" + path + "?" + query) == Some(path)
    ensures UrlPath("sqlite://" + path) == Some(path)
  {
    assert "sqlite://" + path + "?" + query == "sqlite://" + (path + ("?" + query));
    UrlPathOf(path + ("?" + query));
    BeforeFirstPast(path, '?', "?" + query);
    UrlPathOf(path);
    BeforeFirstPast(path, '?', []);
    assert path + [] == path;
  }

  /** An in-memory database creates no directory, whatever the query. */
  lemma MemoryCreatesNothing(query: string)
    ensures EnsureSqliteDir("sqlite://:memory:?" + query) == None
  {
    var rest := ":memory:?" + query;
    assert rest == ":memory:" + ("?" + query);
    UrlPathOf(rest);
    BeforeFirstPast(":memory:", '?', "?" + query);
    assert ("?" + query)[0] == '?';
    assert BeforeFirst(rest, '?') == ":memory:";
    assert "sqlite://:memory:?" + query == "sqlite://" + rest;
    assert UrlPath("sqlite://" + rest) == Some(":memory:");
  }

  /** An empty path creates no directory, whatever the query. */
  lemma EmptyPathCreatesNothing(query: string)
    ensures EnsureSqliteDir("sqlite:?" + query) == None
  {
    var rest := "?" + query;
    assert rest[0] == '?';
    UrlPathOf(rest);
    assert BeforeFirst(rest, '?') == [];
  }

  /** A "file:" prefix is dropped before the parent directory is taken. */
  lemma FilePrefixDropped(dir: string, name: string)
    requires dir != [] && dir[|dir| - 1] != '/' && '?' !in dir
    requires name != [] && '/' !in name && '?' !in name
    ensures EnsureSqliteDir("sqlite://file:" + dir + "/" + name) == Some(dir)
  {
    var p := dir + "/" + name;
    assert "sqlite://file:" + dir + "/" + name == "sqlite://file:" + p;
    assert '?' !in p by {
      assert forall k :: 0 <= k < |p| ==> p[k] == '/' || p[k] in dir || p[k] in name;
    }
    FileUrlPath(p);
    assert ("file:" + p)[0] != (":memory:")[0];
    PrefixOfConcat("file:", p);
    ParentOfJoin(dir, name);
  }

  /** The path of a "sqlite://file:" URL without a query keeps its "file:" prefix. */
  lemma FileUrlPath(p: string)
    requires '?' !in p
    ensures UrlPath("sqlite://file:" + p) == Some("file:" + p)
  {
    assert '?' !in "file:" + p;
    assert "sqlite://file:" + p == "sqlite://" + ("file:" + p);
    QueryIgnored("file:" + p, "");
  }

  // ---------------------------------------------------------------------------------------
  // fetch_appointment_event

  /** The display name the LEFT JOIN on users.id finds for a barber id. */
  function JoinedName(users: seq<UserRow>, barberId: Option<string>): (r: Option<string>)
    ensures r.Some? ==> barberId.Some?
    ensures r.Some? ==> exists u :: u in users && u.id == barberId.value && u.displayName == r.value
    ensures r.None? && barberId.Some? ==> forall u :: u in users ==> u.id != barberId.value
  {
    if barberId.None? || users == [] then None
    else if users[0].id == barberId.value then Some(users[0].displayName)
    else JoinedName(users[1..], barberId)
  }

  /** `fetch_appointment_event`: the row joined with the barber's name; None when the id is
      unknown or the query fails. */
  function FetchAppointmentEvent(st: AppState, id: string): (r: Option<AppointmentRow>)
    reads st
    ensures r.Some? <==> st.online && id in st.appointments
    ensures r.Some? ==> r.value.record == st.appointments[id]
    ensures r.Some? ==> r.value.barberName == JoinedName(st.users, st.appointments[id].barberId)
  {
    if st.online && id in st.appointments then
      var a := st.appointments[id];
      Some(AppointmentRow(a, JoinedName(st.users, a.barberId)))
    else None
  }

  // ---------------------------------------------------------------------------------------
  // seed_admin, seed_cms

  /** `env::var(key).unwrap_or_else(|_| default)`. */
  function EnvOr(env: map<string, string>, key: string, default: string): string {
    if key in env then env[key] else default
  }

  predicate HasRole(users: seq<UserRow>, role: string) {
    exists i :: 0 <= i < |users| && users[i].role == role
  }

  predicate HasUserId(users: seq<UserRow>, id: string) {
    exists i :: 0 <= i < |users| && users[i].id == id
  }

  function CountRole(users: seq<UserRow>, role: string): (n: nat)
    ensures n <= |users|
    ensures n == 0 <==> !HasRole(users, role)
  {
    if users == [] then 0
    else
      var rest := CountRole(users[1..], role);
      assert HasRole(users[1..], role) ==> HasRole(users, role) by {
        if HasRole(users[1..], role) {
          var i :| 0 <= i < |users| - 1 && users[1..][i].role == role;
          assert users[i + 1].role == role;
        }
      }
      assert HasRole(users, role) && users[0].role != role ==> HasRole(users[1..], role) by {
        if HasRole(users, role) && users[0].role != role {
          var i :| 0 <= i < |users| && users[i].role == role;
          assert users[1..][i - 1].role == role;
        }
      }
      (if users[0].role == role then 1 else 0) + rest
  }

  lemma {:induction false} CountRoleAppend(users: seq<UserRow>, u: UserRow, role: string)
    ensures CountRole(users + [u], role) == CountRole(users, role) + (if u.role == role then 1 else 0)
  {
    if users == [] {
      assert [u][1..] == [];
    } else {
      assert (users + [u])[1..] == users[1..] + [u];
      CountRoleAppend(users[1..], u, role);
    }
  }

  /** The user a seed inserts, given the environment variables it reads and their defaults. */
  function SeedUser(env: map<string, string>, role: string, id: string, hash: string, now: string): UserRow {
    if role == RoleAdmin then
      UserRow(id, EnvOr(env, "ADMIN_USER", "admin"), EnvOr(env, "ADMIN_DISPLAY_NAME", "Super Admin"),
        RoleAdmin, hash, 1, now)
    else
      UserRow(id, EnvOr(env, "BARBER_USER", "barber1"), EnvOr(env, "BARBER_DISPLAY_NAME", "Barber One"),
        RoleBarber, hash, 1, now)
  }

  /** The password a seed hashes: ADMIN_PASSWORD (default "admin") or BARBER_PASSWORD
      (default "change-me"). */
  function SeedPassword(env: map<string, string>, role: string): string {
    if role == RoleAdmin then EnvOr(env, "ADMIN_PASSWORD", "admin")
    else EnvOr(env, "BARBER_PASSWORD", "change-me")
  }

  /** The users table after seeding one user of `role` unless one already exists. */
  function SeededUsers(users: seq<UserRow>, role: string, u: UserRow): seq<UserRow> {
    if HasRole(users, role) then users else users + [u]
  }

  /** Seeding a role twice adds at most one user of that role, and the second run changes nothing. */
  lemma SeedTwice(users: seq<UserRow>, role: string, u1: UserRow, u2: UserRow)
    requires u1.role == role
    ensures SeededUsers(SeededUsers(users, role, u1), role, u2) == SeededUsers(users, role, u1)
    ensures CountRole(SeededUsers(users, role, u1), role) <= CountRole(users, role) + 1
    ensures CountRole(SeededUsers(users, role, u1), role) >= 1
  {
    if !HasRole(users, role) {
      var s := users + [u1];
      assert s[|users|].role == role;
      CountRoleAppend(users, u1, role);
    }
  }

  /** `seed_admin`: inserts the configured admin only when no admin exists. `hasher` stands
      for `hash_password` (None when hashing fails), applied to the configured password; a
      failed hash, like a failed query, returns false before anything is inserted. */
  method SeedAdmin(st: AppState, env: map<string, string>, newId: string, hasher: string -> Option<string>,
                   now: string)
    returns (ok: bool)
    modifies st`users
    ensures var hash := hasher(SeedPassword(env, RoleAdmin));
      ok == (old(st.online) && (HasRole(old(st.users), RoleAdmin) || (hash.Some? && !HasUserId(old(st.users), newId))))
    ensures st.users == (if ok then SeededUsers(old(st.users), RoleAdmin,
                                      SeedUser(env, RoleAdmin, newId, hasher(SeedPassword(env, RoleAdmin)).UnwrapOr(""), now))
                         else old(st.users))
  {
    if !st.online {
      return false;
    }
    if HasRole(st.users, RoleAdmin) {
      return true;
    }
    var hash := hasher(SeedPassword(env, RoleAdmin));
    if hash.None? || HasUserId(st.users, newId) {
      return false;
    }
    st.users := st.users + [SeedUser(env, RoleAdmin, newId, hash.value, now)];
    ok := true;
  }

  /** The three CMS blocks seeded at start-up. */
  const CmsSeeds: seq<(string, string, string)> := [
    ("home_hero", "Home Hero",
      "<h1>Fresh cuts, booked fast.</h1>\n<p>Barber2Go brings licensed barbers to your doorstep. Book in minutes, get a professional cut at home.</p>"),
    ("home_about", "Home About",
      "<h2>Mobile-first barbering</h2>\n<p>We partner with vetted barbers who travel to you\U{2014}home, hotel, or office. Clear schedules, real-time updates, no hassle.</p>"),
    ("home_services", "Home Services Intro",
      "<h2>Services built for busy days</h2>\n<p>From quick clean-ups to full grooming, choose a service and a time that works for you.</p>")
  ]

  /** The CMS table after inserting each seed whose key is missing. */
  function SeededCms(cms: map<string, CmsBlock>, seeds: seq<(string, string, string)>, now: string): map<string, CmsBlock>
    decreases |seeds|
  {
    if seeds == [] then cms
    else
      var (key, title, html) := seeds[|seeds| - 1];
      var before := SeededCms(cms, seeds[..|seeds| - 1], now);
      if key in before then before else before[key := CmsBlock(key, title, html, now, None)]
  }

  /** Seeding never overwrites a block, and afterwards every seed key is present. */
  lemma {:induction false} SeededCmsKeeps(cms: map<string, CmsBlock>, seeds: seq<(string, string, string)>, now: string)
    ensures forall k :: k in cms ==> k in SeededCms(cms, seeds, now) && SeededCms(cms, seeds, now)[k] == cms[k]
    ensures forall i :: 0 <= i < |seeds| ==> seeds[i].0 in SeededCms(cms, seeds, now)
    ensures forall k :: k in SeededCms(cms, seeds, now) ==> k in cms || exists i :: 0 <= i < |seeds| && seeds[i].0 == k
  {
    if seeds != [] {
      var init := seeds[..|seeds| - 1];
      SeededCmsKeeps(cms, init, now);
      forall i | 0 <= i < |seeds| - 1 ensures seeds[i].0 == init[i].0 { }
    }
  }

  /** Running the CMS seed a second time changes nothing. */
  lemma {:induction false} SeededCmsIdempotent(cms: map<string, CmsBlock>, seeds: seq<(string, string, string)>, now: string, later: string)
    ensures SeededCms(SeededCms(cms, seeds, now), seeds, later) == SeededCms(cms, seeds, now)
  {
    var once := SeededCms(cms, seeds, now);
    SeededCmsKeeps(cms, seeds, now);
    SeededAllPresent(once, seeds, later);
  }

  lemma {:induction false} SeededAllPresent(cms: map<string, CmsBlock>, seeds: seq<(string, string, string)>, now: string)
    requires forall i :: 0 <= i < |seeds| ==> seeds[i].0 in cms
    ensures SeededCms(cms, seeds, now) == cms
  {
    if seeds != [] {
      SeededAllPresent(cms, seeds[..|seeds| - 1], now);
    }
  }

  /** `seed_cms`: inserts each missing block, then, when SEED_BARBER is "true", a barber
      unless one exists. Returns false when a query or the barber's password hash fails; the
      blocks inserted before a failed hash stay. */
  method SeedCms(st: AppState, env: map<string, string>, now: string, barberId: string,
                 hasher: string -> Option<string>)
    returns (ok: bool)
    requires st.Valid()
    modifies st`cmsBlocks, st`users
    ensures st.Valid()
    ensures ok == (old(st.online) &&
      (EnvOr(env, "SEED_BARBER", "false") != "true" || HasRole(old(st.users), RoleBarber) ||
       (hasher(SeedPassword(env, RoleBarber)).Some? && !HasUserId(old(st.users), barberId))))
    ensures st.cmsBlocks == (if old(st.online) then SeededCms(old(st.cmsBlocks), CmsSeeds, now) else old(st.cmsBlocks))
    ensures st.users == (if ok && EnvOr(env, "SEED_BARBER", "false") == "true"
                         then SeededUsers(old(st.users), RoleBarber,
                                SeedUser(env, RoleBarber, barberId, hasher(SeedPassword(env, RoleBarber)).UnwrapOr(""), now))
                         else old(st.users))
  {
    if !st.online {
      return false;
    }
    var i := 0;
    while i < |CmsSeeds|
      invariant 0 <= i <= |CmsSeeds|
      invariant st.cmsBlocks == SeededCms(old(st.cmsBlocks), CmsSeeds[..i], now)
      invariant forall k :: k in st.cmsBlocks ==> st.cmsBlocks[k].key == k
      invariant st.users == old(st.users)
    {
      var (key, title, html) := CmsSeeds[i];
      assert CmsSeeds[..i + 1][..i] == CmsSeeds[..i];
      if key !in st.cmsBlocks {
        st.cmsBlocks := st.cmsBlocks[key := CmsBlock(key, title, html, now, None)];
      }
      i := i + 1;
    }
    assert CmsSeeds[..i] == CmsSeeds;
    if EnvOr(env, "SEED_BARBER", "false") == "true" {
      if !HasRole(st.users, RoleBarber) {
        var hash := hasher(SeedPassword(env, RoleBarber));
        if hash.None? || HasUserId(st.users, barberId) {
          return false;
        }
        st.users := st.users + [SeedUser(env, RoleBarber, barberId, hash.value, now)];
      }
    }
    ok := true;
  }
}
