/** Migration archives: writing an account and its browser profile into named entries, and
    reading such an archive back under the same limits. Compression, encryption and the tar
    encoding carry the entries unchanged. */
module Migration {
  import opened Options
  import opened ProfileTree
  import Text

  /** The archive service's limits on files and on extracted bytes. */
  datatype Limits = Limits(maxFiles: int, maxBytes: int)

  datatype Kind = Regular | Directory | Other

  /** An archive entry as writer and reader handle it: its name is split at every '/', so that an
      absolute name starts with an empty component. `TarMember` has the text name. */
  datatype Member = Member(name: seq<string>, kind: Kind, data: Bytes)

  datatype Account = Account(cookie: string, platformUser: string, profilePresent: bool, details: string)

  datatype Problem =
    | TooLarge | TooMany
    | UnsafePath | UnknownDirectory | NotAFile | UnknownFile | BadManifest | DiskConflict
    | MissingAccount | InvalidAccount | IdentityMismatch | ProfileMismatch

  datatype Result<T> = Ok(value: T) | Err(problem: Problem)

  const MaxManifest: nat := 1024 * 1024

  // ----- identity -----

  /** One `;`-separated part of the cookie, if it names the user. */
  function UserOfPart(part: string): string {
    var pair := Text.Strip(part);
    var i := Text.Find(pair, '=');
    if i < |pair| && pair[..i] == "unb" then Text.Strip(pair[i + 1..]) else ""
  }

  function FirstUser(parts: seq<string>): string
    decreases |parts|
  {
    if parts == [] then "" else if UserOfPart(parts[0]) != "" then UserOfPart(parts[0]) else FirstUser(parts[1..])
  }

  /** `cookie_user_id`, with "" for none. */
  function CookieUser(cookie: string): string {
    FirstUser(Text.Split(cookie, ';'))
  }

  /** The part, trimmed, assigns this user to the cookie `unb`. */
  ghost predicate NamesUser(part: string, user: string) {
    user != "" && exists value :: Text.Strip(part) == "unb=" + value && Text.Strip(value) == user
  }

  lemma PartNamesUser(part: string, user: string)
    requires user != ""
    ensures UserOfPart(part) == user <==> NamesUser(part, user)
  {
    var pair := Text.Strip(part);
    var i := Text.Find(pair, '=');
    if value :| pair == "unb=" + value && Text.Strip(value) == user {
      assert pair == "unb" + ['='] + value;
      Text.FindInConcat("unb", '=', value);
      assert pair[..3] == "unb" && pair[4..] == value;
    }
    if UserOfPart(part) == user {
      assert pair == pair[..i] + ['='] + pair[i + 1..];
      assert pair == "unb=" + pair[i + 1..];
    }
  }

  lemma {:induction false} FirstUserIs(parts: seq<string>, i: nat)
    requires i <= |parts| && forall j :: 0 <= j < i ==> UserOfPart(parts[j]) == ""
    ensures i < |parts| && UserOfPart(parts[i]) != "" ==> FirstUser(parts) == UserOfPart(parts[i])
    ensures i == |parts| ==> FirstUser(parts) == ""
    decreases |parts|
  {
    if i > 0 { FirstUserIs(parts[1..], i - 1); }
  }

  /** The cookie's user is the one that the first part with a user names. */
  lemma CookieUserIs(cookie: string, i: nat, user: string)
    requires i < |Text.Split(cookie, ';')| && NamesUser(Text.Split(cookie, ';')[i], user)
    requires forall j, other :: 0 <= j < i ==> !NamesUser(Text.Split(cookie, ';')[j], other)
    ensures CookieUser(cookie) == user
  {
    var parts := Text.Split(cookie, ';');
    PartNamesUser(parts[i], user);
    forall j | 0 <= j < i ensures UserOfPart(parts[j]) == "" {
      if UserOfPart(parts[j]) != "" { PartNamesUser(parts[j], UserOfPart(parts[j])); }
    }
    FirstUserIs(parts, i);
  }

  lemma NoCookieUser(cookie: string)
    requires forall j, user :: 0 <= j < |Text.Split(cookie, ';')| ==> !NamesUser(Text.Split(cookie, ';')[j], user)
    ensures CookieUser(cookie) == ""
  {
    var parts := Text.Split(cookie, ';');
    forall j | 0 <= j < |parts| ensures UserOfPart(parts[j]) == "" {
      if UserOfPart(parts[j]) != "" { PartNamesUser(parts[j], UserOfPart(parts[j])); }
    }
    FirstUserIs(parts, |parts|);
  }

  predicate Consistent(a: Account) {
    CookieUser(a.cookie) == "" || a.platformUser == "" || CookieUser(a.cookie) == a.platformUser
  }

  // ----- writing -----

  function Sum(items: seq<Item>): nat
    decreases |items|
  {
    if items == [] then 0 else |items[0].data| + Sum(items[1..])
  }

  function ProfileMember(item: Item): Member {
    Member(["profile"] + item.path, Regular, item.data)
  }

  function ProfileMembers(items: seq<Item>): (r: seq<Member>)
    ensures |r| == |items|
    decreases |items|
  {
    if items == [] then [] else [ProfileMember(items[0])] + ProfileMembers(items[1..])
  }

  function AccountMember(json: Bytes): Member {
    Member(["account.json"], Regular, json)
  }

  function FolderMember(): Member {
    Member(["profile"], Directory, [])
  }

  function Header(json: Bytes, withProfile: bool): seq<Member> {
    [AccountMember(json)] + (if withProfile then [FolderMember()] else [])
  }

  datatype Writing = Writing(archive: seq<Member>, count: int, total: int)

  /** One profile file in the writer's loop. */
  function WriteFile(limits: Limits, w: Writing, item: Item): Result<Writing> {
    var total, count := w.total + |item.data|, w.count + 1;
    if total > limits.maxBytes then Err(TooLarge)
    else if count > limits.maxFiles then Err(TooMany)
    else Ok(Writing(w.archive + [ProfileMember(item)], count, total))
  }

  function WriteFiles(limits: Limits, w: Result<Writing>, items: seq<Item>): Result<Writing>
    decreases |items|
  {
    if items == [] || w.Err? then w else WriteFiles(limits, WriteFile(limits, w.value, items[0]), items[1..])
  }

  function Started(json: Bytes, withProfile: bool): Writing {
    Writing(Header(json, withProfile), 1, |json|)
  }

  /** `_write_compressed_payload`. */
  function Write(limits: Limits, json: Bytes, profile: Option<Listing>): Result<seq<Member>> {
    var done := WriteFiles(limits, Ok(Started(json, profile.Some?)), ItemsOf(profile));
    if done.Ok? then Ok(done.value.archive) else Err(done.problem)
  }

  function ItemsOf(profile: Option<Listing>): seq<Item> {
    if profile.Some? then Walk([], profile.value) else []
  }

  predicate Fits(limits: Limits, count: int, total: int) {
    count <= limits.maxFiles && total <= limits.maxBytes
  }

  /** The writer accepts exactly when it adds no file or the totals with all of them fit. */
  lemma {:induction false} WriteFilesExactly(limits: Limits, w: Writing, items: seq<Item>)
    ensures var done := WriteFiles(limits, Ok(w), items);
      && (done.Ok? <==> items == [] || Fits(limits, w.count + |items|, w.total + Sum(items)))
      && (done.Ok? ==> done.value == Writing(w.archive + ProfileMembers(items), w.count + |items|, w.total + Sum(items)))
    decreases |items|
  {
    if items == [] {
      assert w.archive + [] == w.archive;
    } else {
      var next := WriteFile(limits, w, items[0]);
      if next.Ok? {
        WriteFilesExactly(limits, next.value, items[1..]);
        assert (w.archive + [ProfileMember(items[0])]) + ProfileMembers(items[1..])
            == w.archive + ([ProfileMember(items[0])] + ProfileMembers(items[1..]));
      }
    }
  }

  lemma WriteExactly(limits: Limits, json: Bytes, profile: Option<Listing>)
    ensures var items := ItemsOf(profile);
      && (Write(limits, json, profile).Ok? <==> items == [] || Fits(limits, 1 + |items|, |json| + Sum(items)))
      && (Write(limits, json, profile).Ok? ==>
            Write(limits, json, profile).value == Header(json, profile.Some?) + ProfileMembers(items))
  {
    WriteFilesExactly(limits, Started(json, profile.Some?), ItemsOf(profile));
  }

  // ----- paths in the archive -----

  function Significant(parts: seq<string>): seq<string>
    decreases |parts|
  {
    if parts == [] then []
    else (if parts[0] == "" || parts[0] == "." then [] else [parts[0]]) + Significant(parts[1..])
  }

  /** The parts of a POSIX path without its root. */
  function Parts(name: seq<string>): Path {
    Significant(name)
  }

  predicate Unsafe(name: seq<string>) {
    (|name| > 1 && name[0] == "") || ".." in Parts(name) || Parts(name) == []
  }

  lemma {:induction false} SignificantOfLegal(parts: seq<string>)
    requires forall p :: p in parts ==> LegalName(p)
    ensures Significant(parts) == parts
    decreases |parts|
  {
    if parts != [] {
      assert parts[0] in parts;
      SignificantOfLegal(parts[1..]);
    }
  }

  /** Reading back the name of a profile member gives its path. */
  lemma ProfileMemberParts(item: Item)
    requires forall p :: p in item.path ==> LegalName(p)
    ensures Parts(ProfileMember(item).name) == ["profile"] + item.path && !Unsafe(ProfileMember(item).name)
  {
    var parts := ["profile"] + item.path;
    assert forall p :: p in parts ==> p == "profile" || p in item.path;
    SignificantOfLegal(parts);
  }

  ghost predicate Names(m: Member, name: string) {
    Parts(m.name) == [name] && !Unsafe(m.name)
  }

  lemma HeaderNames(json: Bytes)
    ensures Names(AccountMember(json), "account.json") && Names(FolderMember(), "profile")
  {
    SignificantOfLegal(["account.json"]);
    SignificantOfLegal(["profile"]);
  }

  // ----- reading -----

  /** The reader's variables and the directory it fills. */
  datatype Reading = Reading(files: map<Path, Bytes>, dir: bool, account: Option<Bytes>, count: nat, total: nat)

  function Fresh(): Reading {
    Reading(map[], false, None, 0, 0)
  }

  predicate ProperPrefix(p: Path, q: Path) {
    |p| < |q| && q[..|p|] == p
  }

  /** The file system refuses a file below a file, and a file where a directory is. */
  predicate Clash(r: Reading, parts: Path) {
    || (exists f :: f in r.files && (ProperPrefix(f, parts) || ProperPrefix(parts, f)))
    || (parts == ["profile"] && r.dir)
  }

  function ReadDirectory(r: Reading, parts: Path): Result<Reading> {
    if parts != ["profile"] then Err(UnknownDirectory)
    else if ["profile"] in r.files then Err(DiskConflict)
    else Ok(r.(dir := true))
  }

  function StoreFile(r: Reading, parts: Path, data: Bytes): Result<Reading> {
    if parts == ["account.json"] then
      if r.account.Some? || |data| > MaxManifest then Err(BadManifest) else Ok(r.(account := Some(data)))
    else if Clash(r, parts) then Err(DiskConflict)
    else Ok(r.(files := r.files[parts := data], dir := r.dir || |parts| > 1))
  }

  /** One iteration of the reader's loop. */
  function ReadMember(limits: Limits, r: Reading, m: Member): Result<Reading> {
    var parts := Parts(m.name);
    if Unsafe(m.name) then Err(UnsafePath)
    else if m.kind.Directory? then ReadDirectory(r, parts)
    else if !m.kind.Regular? then Err(NotAFile)
    else if parts != ["account.json"] && parts[0] != "profile" then Err(UnknownFile)
    else
      var counted := r.(count := r.count + 1, total := r.total + |m.data|);
      if counted.count > limits.maxFiles then Err(TooMany)
      else if counted.total > limits.maxBytes then Err(TooLarge)
      else StoreFile(counted, parts, m.data)
  }

  function ReadMembers(limits: Limits, r: Result<Reading>, archive: seq<Member>): Result<Reading>
    decreases |archive|
  {
    if archive == [] || r.Err? then r else ReadMembers(limits, ReadMember(limits, r.value, archive[0]), archive[1..])
  }

  /** What `_extract_payload` returns: the account, the profile's files when there is a profile
      directory, and the profile's size and file count. */
  datatype Extracted = Extracted(account: Account, profile: Option<map<Path, Bytes>>, size: int, count: int)

  function NonNegative(n: int): int { if n < 0 then 0 else n }

  function Conclude(r: Reading, decode: Bytes -> Option<Account>): Result<Extracted> {
    if r.account.None? then Err(MissingAccount)
    else
      var decoded := decode(r.account.value);
      if decoded.None? then Err(InvalidAccount)
      else if !Consistent(decoded.value) then Err(IdentityMismatch)
      else if decoded.value.profilePresent != r.dir then Err(ProfileMismatch)
      else Ok(Extracted(decoded.value, if r.dir then Some(r.files) else None,
                        NonNegative(r.total - |r.account.value|), NonNegative(r.count - 1)))
  }

  /** `_extract_payload`. */
  function Extract(limits: Limits, decode: Bytes -> Option<Account>, archive: seq<Member>): Result<Extracted> {
    var r := ReadMembers(limits, Ok(Fresh()), archive);
    if r.Err? then Err(r.problem) else Conclude(r.value, decode)
  }

  // ----- the round trip -----

  /** The extracted files of some items. */
  function Stored(items: seq<Item>): map<Path, Bytes>
    decreases |items|
  {
    if items == [] then map[]
    else Stored(items[..|items| - 1])[["profile"] + items[|items| - 1].path := items[|items| - 1].data]
  }

  /** Items as a walk yields them: legal names, no path twice, no file below a file. */
  ghost predicate Proper(items: seq<Item>) {
    && (forall i :: 0 <= i < |items| ==> items[i].path != [] && forall p :: p in items[i].path ==> LegalName(p))
    && (forall i, j :: 0 <= i < |items| && 0 <= j < |items| ==> !ProperPrefix(items[i].path, items[j].path))
    && Distinct(items)
  }

  lemma WalkIsProper(l: Listing)
    requires WellFormed(l)
    ensures Proper(Walk([], l))
  {
    var items := Walk([], l);
    WalkDistinct([], l);
    forall i | 0 <= i < |items| ensures FileAt(l, items[i].path).Some? {
      assert items[i] in items;
      WalkExactly([], l, items[i]);
      assert items[i].path[0..] == items[i].path;
    }
    forall i | 0 <= i < |items| ensures items[i].path != [] && forall p :: p in items[i].path ==> LegalName(p) {
      PathsAreLegal(l, items[i].path);
    }
    forall i, j | 0 <= i < |items| && 0 <= j < |items| ensures !ProperPrefix(items[i].path, items[j].path) {
      if ProperPrefix(items[i].path, items[j].path) {
        FilesAreLeaves(l, items[i].path, items[j].path);
      }
    }
  }

  lemma {:induction false} StoredKeys(items: seq<Item>, f: Path)
    ensures f in Stored(items) <==> exists i :: 0 <= i < |items| && f == ["profile"] + items[i].path
    decreases |items|
  {
    if items != [] {
      var n := |items| - 1;
      StoredKeys(items[..n], f);
      if i :| 0 <= i < n && f == ["profile"] + items[i].path { assert items[..n][i] == items[i]; }
    }
  }

  /** Every item is stored under its path with its content. */
  lemma {:induction false} StoredAt(items: seq<Item>, i: nat)
    requires i < |items| && Distinct(items)
    ensures ["profile"] + items[i].path in Stored(items) && Stored(items)[["profile"] + items[i].path] == items[i].data
    decreases |items|
  {
    var n := |items| - 1;
    if i < n {
      StoredAt(items[..n], i);
      assert (["profile"] + items[i].path)[1..] == items[i].path;
      assert (["profile"] + items[n].path)[1..] == items[n].path;
    }
  }

  lemma {:induction false} StoredSize(items: seq<Item>)
    requires Distinct(items)
    ensures |Stored(items)| == |items|
    decreases |items|
  {
    if items != [] {
      var n := |items| - 1;
      var key := ["profile"] + items[n].path;
      StoredSize(items[..n]);
      if key in Stored(items[..n]) {
        StoredKeys(items[..n], key);
        var i :| 0 <= i < n && key == ["profile"] + items[..n][i].path;
        SameBelowProfile(items[i].path, items[n].path);
      }
      assert Stored(items).Keys == Stored(items[..n]).Keys + {key};
      assert |Stored(items)| == |Stored(items).Keys| && |Stored(items[..n])| == |Stored(items[..n]).Keys|;
    }
  }

  lemma SameBelowProfile(p: Path, q: Path)
    ensures ["profile"] + p == ["profile"] + q <==> p == q
  {
    assert (["profile"] + p)[1..] == p && (["profile"] + q)[1..] == q;
  }

  lemma PrefixBelowProfile(p: Path, q: Path)
    ensures ProperPrefix(["profile"] + p, ["profile"] + q) <==> ProperPrefix(p, q)
  {
    var a, b := ["profile"] + p, ["profile"] + q;
    if |p| < |q| {
      assert b[..|a|] == ["profile"] + q[..|p|];
      assert a[1..] == p && (["profile"] + q[..|p|])[1..] == q[..|p|];
    }
  }

  lemma NoClash(items: seq<Item>, k: nat, r: Reading)
    requires Proper(items) && k < |items| && r.files == Stored(items[..k])
    ensures !Clash(r, ["profile"] + items[k].path)
  {
    var parts := ["profile"] + items[k].path;
    forall f | f in r.files ensures !ProperPrefix(f, parts) && !ProperPrefix(parts, f) {
      StoredKeys(items[..k], f);
      var i :| 0 <= i < k && f == ["profile"] + items[..k][i].path;
      assert items[..k][i] == items[i];
      PrefixBelowProfile(items[i].path, items[k].path);
      PrefixBelowProfile(items[k].path, items[i].path);
    }
  }

  function SumTo(items: seq<Item>, k: nat): nat
    requires k <= |items|
  {
    if k == 0 then 0 else SumTo(items, k - 1) + |items[k - 1].data|
  }

  /** The reader's variables after the header and `k` profile files. */
  function ReadSoFar(json: Bytes, items: seq<Item>, k: nat): Reading
    requires k <= |items|
  {
    Reading(Stored(items[..k]), true, Some(json), 1 + k, |json| + SumTo(items, k))
  }

  lemma ReadNextItem(limits: Limits, json: Bytes, items: seq<Item>, k: nat)
    requires Proper(items) && k < |items|
    requires Fits(limits, 2 + k, |json| + SumTo(items, k + 1))
    ensures ReadMember(limits, ReadSoFar(json, items, k), ProfileMember(items[k])) == Ok(ReadSoFar(json, items, k + 1))
  {
    var r := ReadSoFar(json, items, k);
    var counted := r.(count := r.count + 1, total := r.total + |items[k].data|);
    ProfileMemberParts(items[k]);
    NoClash(items, k, counted);
    assert items[..k + 1][..k] == items[..k];
  }

  lemma {:induction false} SumToMonotone(items: seq<Item>, k: nat, n: nat)
    requires k <= n <= |items|
    ensures SumTo(items, k) <= SumTo(items, n)
    decreases n
  {
    if k < n { SumToMonotone(items, k, n - 1); }
  }

  lemma {:induction false} ReadItems(limits: Limits, json: Bytes, items: seq<Item>, k: nat)
    requires Proper(items) && k <= |items|
    requires k < |items| ==> Fits(limits, 1 + |items|, |json| + SumTo(items, |items|))
    ensures ReadMembers(limits, Ok(ReadSoFar(json, items, k)), ProfileMembers(items[k..]))
      == Ok(ReadSoFar(json, items, |items|))
    decreases |items| - k
  {
    if k < |items| {
      SumToMonotone(items, k + 1, |items|);
      ReadNextItem(limits, json, items, k);
      ReadItems(limits, json, items, k + 1);
      assert items[k..][1..] == items[k + 1..];
      var members := ProfileMembers(items[k..]);
      assert members[0] == ProfileMember(items[k]) && members[1..] == ProfileMembers(items[k + 1..]);
    }
  }

  lemma {:induction false} SumOfTail(items: seq<Item>, k: nat)
    requires k <= |items|
    ensures SumTo(items, k) + Sum(items[k..]) == SumTo(items, |items|)
    decreases |items| - k
  {
    if k < |items| {
      SumOfTail(items, k + 1);
      assert items[k..][1..] == items[k + 1..];
    }
  }

  /** The account can travel: its JSON is at most 1 MiB, its cookie and platform identities
      agree, it says whether there is a profile, and the account file alone fits the limits. */
  predicate Travels(limits: Limits, a: Account, json: Bytes, withProfile: bool) {
    && |json| <= 1024 * 1024 && a.profilePresent == withProfile
    && (CookieUser(a.cookie) != "" && a.platformUser != "" ==> CookieUser(a.cookie) == a.platformUser)
    && Fits(limits, 1, |json|)
  }

  function HeaderRead(json: Bytes, withProfile: bool): Reading {
    Reading(map[], withProfile, Some(json), 1, |json|)
  }

  /** The reader on an account entry `a` and a directory entry `d`, whatever spelling names them. */
  lemma ReadEntries(limits: Limits, a: Member, d: Member)
    requires Names(a, "account.json") && a.kind.Regular?
    requires Names(d, "profile") && d.kind.Directory?
    ensures
      var first := ReadMember(limits, Fresh(), a);
      if !Fits(limits, 1, |a.data|) || |a.data| > MaxManifest then first.Err? else first == Ok(HeaderRead(a.data, false))
    ensures ReadMember(limits, HeaderRead(a.data, false), d) == Ok(HeaderRead(a.data, true))
  {
  }

  lemma ReadHeader(limits: Limits, a: Member, d: Member, withProfile: bool, rest: seq<Member>)
    requires Names(a, "account.json") && a.kind.Regular?
    requires Names(d, "profile") && d.kind.Directory?
    ensures
      var whole := ReadMembers(limits, Ok(Fresh()), [a] + (if withProfile then [d] else []) + rest);
      if !Fits(limits, 1, |a.data|) || |a.data| > MaxManifest then whole.Err?
      else whole == ReadMembers(limits, Ok(HeaderRead(a.data, withProfile)), rest)
  {
    ReadEntries(limits, a, d);
    var archive := [a] + (if withProfile then [d] else []) + rest;
    if withProfile {
      assert archive[1..][0] == d;
      assert archive[1..][1..] == rest;
    } else {
      assert archive[1..] == rest;
    }
  }

  lemma ReadProfile(limits: Limits, json: Bytes, items: seq<Item>)
    requires Proper(items) && (items == [] || Fits(limits, 1 + |items|, |json| + Sum(items)))
    ensures ReadMembers(limits, Ok(HeaderRead(json, true)), ProfileMembers(items))
      == Ok(Reading(Stored(items), true, Some(json), 1 + |items|, |json| + Sum(items)))
  {
    SumOfTail(items, 0);
    assert items[0..] == items && items[..|items|] == items && items[..0] == [];
    assert ReadSoFar(json, items, 0) == HeaderRead(json, true);
    ReadItems(limits, json, items, 0);
  }

  /** The whole archive as the reader sees it. */
  lemma ReadWritten(limits: Limits, json: Bytes, profile: Option<Listing>)
    requires profile.Some? ==> WellFormed(profile.value)
    requires Write(limits, json, profile).Ok? && Fits(limits, 1, |json|) && |json| <= MaxManifest
    ensures var items := ItemsOf(profile);
      ReadMembers(limits, Ok(Fresh()), Write(limits, json, profile).value)
        == Ok(Reading(Stored(items), profile.Some?, Some(json), 1 + |items|, |json| + Sum(items)))
  {
    var items := ItemsOf(profile);
    WriteExactly(limits, json, profile);
    ReadFromHeader(limits, json, profile.Some?, ProfileMembers(items));
    if profile.Some? {
      WalkIsProper(profile.value);
      ReadProfile(limits, json, items);
    } else {
      assert ReadMembers(limits, Ok(HeaderRead(json, false)), []) == Ok(HeaderRead(json, false));
    }
  }

  lemma ReadFromHeader(limits: Limits, json: Bytes, withProfile: bool, rest: seq<Member>)
    requires Fits(limits, 1, |json|) && |json| <= MaxManifest
    ensures ReadMembers(limits, Ok(Fresh()), Header(json, withProfile) + rest) ==
      ReadMembers(limits, Ok(HeaderRead(json, withProfile)), rest)
  {
    HeaderNames(json);
    ReadHeader(limits, AccountMember(json), FolderMember(), withProfile, rest);
  }

  /** For every account, every static profile and every limits: an archive the writer produces
      is accepted by the reader under the same limits exactly when the account can travel, and
      then comes back with the same account, the stored files, their size and their count. */
  lemma RoundTrip(limits: Limits, a: Account, encode: Account -> Bytes, decode: Bytes -> Option<Account>, profile: Option<Listing>)
    requires decode(encode(a)) == Some(a)
    requires profile.Some? ==> WellFormed(profile.value)
    requires Write(limits, encode(a), profile).Ok?
    ensures
      var items := ItemsOf(profile);
      var back := Extract(limits, decode, Write(limits, encode(a), profile).value);
      && (back.Ok? <==> Travels(limits, a, encode(a), profile.Some?))
      && (back.Ok? ==>
            back.value == Extracted(a, if profile.Some? then Some(Stored(items)) else None, Sum(items), |items|))
  {
    var json := encode(a);
    WriteExactly(limits, json, profile);
    if Fits(limits, 1, |json|) && |json| <= MaxManifest {
      ReadWritten(limits, json, profile);
    } else {
      HeaderNames(json);
      ReadHeader(limits, AccountMember(json), FolderMember(), profile.Some?, ProfileMembers(ItemsOf(profile)));
    }
  }

  /** Whatever the encoder and the limits, an account without a profile whose JSON is over 1 MiB
      is written, and the reader refuses the archive. */
  lemma OversizedAccountIsRefused(limits: Limits, a: Account, encode: Account -> Bytes, decode: Bytes -> Option<Account>)
    requires decode(encode(a)) == Some(a) && |encode(a)| > 1024 * 1024
    ensures Write(limits, encode(a), None).Ok?
    ensures Extract(limits, decode, Write(limits, encode(a), None).value).Err?
  {
    WriteExactly(limits, encode(a), None);
    RoundTrip(limits, a, encode, decode, None);
  }

  // An encoder for accounts that differ in their details only: one byte for each letter.

  predicate Latin(text: string) { forall i :: 0 <= i < |text| ==> text[i] as int < 256 }

  function ByteOf(c: char): bv8 { (c as int % 256) as bv8 }

  function CharOf(b: bv8): char { b as int as char }

  lemma CharComesBack(c: char)
    requires c as int < 256
    ensures CharOf(ByteOf(c)) == c
  {
  }

  function EncodeDetails(a: Account): Bytes {
    seq(|a.details|, i requires 0 <= i < |a.details| => ByteOf(a.details[i]))
  }

  function DecodeDetails(json: Bytes): Option<Account> {
    Some(Account("", "", false, seq(|json|, i requires 0 <= i < |json| => CharOf(json[i]))))
  }

  lemma DetailsComeBack(details: string)
    requires Latin(details)
    ensures var a := Account("", "", false, details); DecodeDetails(EncodeDetails(a)) == Some(a)
  {
    var back := DecodeDetails(EncodeDetails(Account("", "", false, details))).value;
    forall i | 0 <= i < |details| ensures back.details[i] == details[i] { CharComesBack(details[i]); }
    assert back.details == details;
  }

  /** Such an account: its details are a text of 1 MiB and one letter. */
  lemma LongDetailsAreRefused() returns (a: Account)
    ensures a.details == seq(1024 * 1024 + 1, _ => 'x') && Consistent(a)
    ensures |EncodeDetails(a)| == 1024 * 1024 + 1 && DecodeDetails(EncodeDetails(a)) == Some(a)
    ensures
      var limits := Limits(100000, 2 * 1024 * 1024 * 1024);
      && Write(limits, EncodeDetails(a), None).Ok?
      && Extract(limits, DecodeDetails, Write(limits, EncodeDetails(a), None).value).Err?
  {
    a := Account("", "", false, seq(1024 * 1024 + 1, _ => 'x'));
    DetailsComeBack(a.details);
    OversizedAccountIsRefused(Limits(100000, 2 * 1024 * 1024 * 1024), a, EncodeDetails, DecodeDetails);
  }

  // ----- names as text -----

  /** An archive entry with its name as text. */
  datatype TarMember = TarMember(name: string, kind: Kind, data: Bytes)

  /** The writer's names are joined, the reader's are split. */
  function ToTar(archive: seq<Member>): (tar: seq<TarMember>)
    ensures |tar| == |archive|
    decreases |archive|
  {
    if archive == [] then []
    else [TarMember(Text.Join(archive[0].name, ['/']), archive[0].kind, archive[0].data)] + ToTar(archive[1..])
  }

  function FromTar(tar: seq<TarMember>): (archive: seq<Member>)
    ensures |archive| == |tar|
    decreases |tar|
  {
    if tar == [] then []
    else [Member(Text.Split(tar[0].name, '/'), tar[0].kind, tar[0].data)] + FromTar(tar[1..])
  }

  ghost predicate Joinable(m: Member) {
    m.name != [] && forall p :: p in m.name ==> '/' !in p
  }

  lemma {:induction false} NamesSurvive(archive: seq<Member>)
    requires forall m :: m in archive ==> Joinable(m)
    ensures FromTar(ToTar(archive)) == archive
    decreases |archive|
  {
    if archive != [] {
      assert Joinable(archive[0]);
      Text.SplitOfJoin(archive[0].name, '/');
      NamesSurvive(archive[1..]);
      assert ToTar(archive)[1..] == ToTar(archive[1..]);
    }
  }

  lemma {:induction false} ProfileMembersJoinable(items: seq<Item>)
    requires forall i :: 0 <= i < |items| ==> forall p :: p in items[i].path ==> LegalName(p)
    ensures forall m :: m in ProfileMembers(items) ==> Joinable(m)
    decreases |items|
  {
    if items != [] {
      var name := ["profile"] + items[0].path;
      assert forall p :: p in name ==> p == "profile" || p in items[0].path;
      assert forall p :: p in items[0].path ==> LegalName(p);
      ProfileMembersJoinable(items[1..]);
    }
  }

  lemma WrittenNamesJoinable(limits: Limits, json: Bytes, profile: Option<Listing>)
    requires profile.Some? ==> WellFormed(profile.value)
    requires Write(limits, json, profile).Ok?
    ensures forall m :: m in Write(limits, json, profile).value ==> Joinable(m)
  {
    WriteExactly(limits, json, profile);
    if profile.Some? { WalkIsProper(profile.value); }
    ProfileMembersJoinable(ItemsOf(profile));
    assert Joinable(AccountMember(json)) && Joinable(FolderMember());
  }

  /** The round trip through the text names of the archive: what the reader sees after splitting
      them is what the writer had before joining them. */
  lemma TextRoundTrip(limits: Limits, a: Account, encode: Account -> Bytes, decode: Bytes -> Option<Account>, profile: Option<Listing>)
    requires decode(encode(a)) == Some(a)
    requires profile.Some? ==> WellFormed(profile.value)
    requires Write(limits, encode(a), profile).Ok?
    ensures
      var items := ItemsOf(profile);
      var back := Extract(limits, decode, FromTar(ToTar(Write(limits, encode(a), profile).value)));
      && (back.Ok? <==> Travels(limits, a, encode(a), profile.Some?))
      && (back.Ok? ==>
            back.value == Extracted(a, if profile.Some? then Some(Stored(items)) else None, Sum(items), |items|))
  {
    RoundTrip(limits, a, encode, decode, profile);
    WrittenNamesJoinable(limits, encode(a), profile);
    NamesSurvive(Write(limits, encode(a), profile).value);
  }

  /** All that comes back lies below the profile directory, and is as much as was counted. */
  lemma ReturnedFiles(l: Listing)
    requires WellFormed(l)
    ensures |Stored(Walk([], l))| == |Walk([], l)|
    ensures forall f :: f in Stored(Walk([], l)) ==> f != [] && f[0] == "profile"
  {
    var items := Walk([], l);
    WalkDistinct([], l);
    StoredSize(items);
    forall f | f in Stored(items) ensures f != [] && f[0] == "profile" { StoredKeys(items, f); }
  }

  /** The profile that comes back, path by path: exactly the profile's regular files outside
      excluded directories and not of an excluded name, unchanged. */
  lemma ReturnedFile(l: Listing, p: Path, data: Bytes)
    requires WellFormed(l)
    ensures var files := Stored(Walk([], l));
      (["profile"] + p in files && files[["profile"] + p] == data) <==> (FileAt(l, p) == Some(data) && Kept(p))
  {
    var items := Walk([], l);
    var files := Stored(items);
    WalkDistinct([], l);
    WalkExactly([], l, Item(p, data));
    assert p[0..] == p;
    if Item(p, data) in items {
      var i :| 0 <= i < |items| && items[i] == Item(p, data);
      StoredAt(items, i);
    }
    StoredKeys(items, ["profile"] + p);
    if ["profile"] + p in files && files[["profile"] + p] == data {
      var i :| 0 <= i < |items| && ["profile"] + p == ["profile"] + items[i].path;
      assert p == (["profile"] + p)[1..] == items[i].path;
      StoredAt(items, i);
      assert items[i] == Item(p, data);
    }
  }

  // ----- any archive at all -----

  /** A file's place: below the profile directory, or that name itself, and nowhere else. */
  predicate Inside(p: Path) {
    p != [] && p[0] == "profile" && ".." !in p && "." !in p && "" !in p
  }

  ghost predicate PrefixFree(files: map<Path, Bytes>) {
    forall p, q :: p in files && q in files ==> !ProperPrefix(p, q)
  }

  /** What every iteration keeps, whatever the archive holds. */
  ghost predicate Safe(limits: Limits, r: Reading) {
    && (forall p :: p in r.files ==> Inside(p))
    && PrefixFree(r.files)
    && (r.dir ==> ["profile"] !in r.files)
    && |r.files| + (if r.account.Some? then 1 else 0) <= r.count
    && (r.account.Some? ==> |r.account.value| <= r.total && |r.account.value| <= MaxManifest)
    && (r.count > 0 ==> Fits(limits, r.count, r.total))
  }

  lemma {:induction false} SignificantParts(name: seq<string>)
    ensures "" !in Significant(name) && "." !in Significant(name)
    decreases |name|
  {
    if name != [] { SignificantParts(name[1..]); }
  }

  lemma InsertKeepsPrefixFree(r: Reading, parts: Path, data: Bytes)
    requires PrefixFree(r.files) && !Clash(r, parts)
    ensures PrefixFree(r.files[parts := data])
    ensures |r.files[parts := data]| <= |r.files| + 1
  {
    var more := r.files[parts := data];
    assert more.Keys == r.files.Keys + {parts} && |more| == |more.Keys| && |r.files| == |r.files.Keys|;
  }

  lemma NothingBelow(files: map<Path, Bytes>, parts: Path)
    requires |parts| > 1 && parts[0] == "profile"
    ensures ProperPrefix(["profile"], parts)
  {
    assert parts[..1] == ["profile"];
  }

  lemma ReadMemberIsSafe(limits: Limits, r: Reading, m: Member)
    requires Safe(limits, r) && ReadMember(limits, r, m).Ok?
    ensures Safe(limits, ReadMember(limits, r, m).value)
  {
    var parts := Parts(m.name);
    SignificantParts(m.name);
    if m.kind.Regular? && parts != ["account.json"] {
      var counted := r.(count := r.count + 1, total := r.total + |m.data|);
      InsertKeepsPrefixFree(counted, parts, m.data);
      if |parts| > 1 { NothingBelow(r.files, parts); }
      else { assert parts == ["profile"]; }
    }
  }

  lemma {:induction false} ReadMembersIsSafe(limits: Limits, r: Reading, archive: seq<Member>)
    requires Safe(limits, r) && ReadMembers(limits, Ok(r), archive).Ok?
    ensures Safe(limits, ReadMembers(limits, Ok(r), archive).value)
    decreases |archive|
  {
    if archive != [] {
      var next := ReadMember(limits, r, archive[0]);
      if next.Ok? {
        ReadMemberIsSafe(limits, r, archive[0]);
        ReadMembersIsSafe(limits, next.value, archive[1..]);
      }
    }
  }

  /** The regular members other than the account's, and their bytes. */
  function Payload(archive: seq<Member>): (nat, nat)
    decreases |archive|
  {
    if archive == [] then (0, 0)
    else
      var (n, size) := Payload(archive[1..]);
      if archive[0].kind.Regular? && Parts(archive[0].name) != ["account.json"]
      then (n + 1, size + |archive[0].data|) else (n, size)
  }

  function AccountShare(r: Reading): (nat, nat) {
    if r.account.Some? then (1, |r.account.value|) else (0, 0)
  }

  lemma {:induction false} PayloadIsCounted(limits: Limits, r: Reading, archive: seq<Member>)
    requires ReadMembers(limits, Ok(r), archive).Ok?
    ensures
      var done := ReadMembers(limits, Ok(r), archive).value;
      && done.count - AccountShare(done).0 == r.count - AccountShare(r).0 + Payload(archive).0
      && done.total - AccountShare(done).1 == r.total - AccountShare(r).1 + Payload(archive).1
    decreases |archive|
  {
    if archive != [] {
      var next := ReadMember(limits, r, archive[0]);
      if next.Ok? { PayloadIsCounted(limits, next.value, archive[1..]); }
    }
  }

  ghost predicate SafeResult(limits: Limits, e: Extracted, payload: (nat, nat)) {
    && (e.count, e.size) == payload
    && Fits(limits, e.count + 1, e.size)
    && Consistent(e.account) && e.account.profilePresent == e.profile.Some?
    && (e.profile.Some? ==>
          && |e.profile.value| <= e.count && PrefixFree(e.profile.value)
          && forall p :: p in e.profile.value ==> |p| > 1 && Inside(p))
  }

  lemma OneName(p: Path)
    ensures |p| == 1 && p[0] == "profile" ==> p == ["profile"]
  {
  }

  lemma DeepFiles(files: map<Path, Bytes>)
    requires (forall p :: p in files ==> Inside(p)) && ["profile"] !in files
    ensures forall p :: p in files ==> |p| > 1
  {
    forall p | p in files ensures |p| > 1 {
      assert Inside(p);
      OneName(p);
    }
  }

  lemma ConcludeIsSafe(limits: Limits, decode: Bytes -> Option<Account>, r: Reading, payload: (nat, nat))
    requires Safe(limits, r) && Conclude(r, decode).Ok?
    requires r.count == AccountShare(r).0 + payload.0 && r.total == AccountShare(r).1 + payload.1
    ensures SafeResult(limits, Conclude(r, decode).value, payload)
  {
    var e := Conclude(r, decode).value;
    assert e.count == payload.0 && e.size == payload.1;
    if r.dir { DeepFiles(r.files); }
  }

  /** Whatever the archive: if it is accepted, every file lies below the profile directory and
      no file below another, the limits hold, the count and size are those of the archive's
      profile members, and the account's identities agree. */
  lemma AcceptedIsSafe(limits: Limits, decode: Bytes -> Option<Account>, archive: seq<Member>)
    requires Extract(limits, decode, archive).Ok?
    ensures SafeResult(limits, Extract(limits, decode, archive).value, Payload(archive))
  {
    ReadMembersIsSafe(limits, Fresh(), archive);
    PayloadIsCounted(limits, Fresh(), archive);
    ConcludeIsSafe(limits, decode, ReadMembers(limits, Ok(Fresh()), archive).value, Payload(archive));
  }

  // ----- the members of an accepted archive -----

  lemma {:induction false} SignificantHas(parts: seq<string>, p: string)
    requires p != "" && p != "."
    ensures p in Significant(parts) <==> p in parts
    decreases |parts|
  {
    if parts != [] { SignificantHas(parts[1..], p); }
  }

  /** A member that the reader lets pass: a relative name without "..", which is the profile
      directory, the account file or a file of the profile. */
  ghost predicate Passes(m: Member) {
    && (|m.name| > 1 ==> m.name[0] != "") && ".." !in m.name && Parts(m.name) != []
    && (m.kind == Regular || m.kind == Directory)
    && (m.kind == Directory ==> Parts(m.name) == ["profile"])
    && (m.kind == Regular ==> Parts(m.name) == ["account.json"] || Parts(m.name)[0] == "profile")
  }

  lemma ReadMemberPasses(limits: Limits, r: Reading, m: Member)
    requires ReadMember(limits, r, m).Ok?
    ensures Passes(m)
    ensures ReadMember(limits, r, m).value.dir == (r.dir || MakesDirectory(m))
  {
    SignificantHas(m.name, "..");
    assert ["account.json"][0] != "profile";
  }

  /** The profile directory itself, or a file below it. */
  predicate MakesDirectory(m: Member) {
    m.kind == Directory || (m.kind == Regular && |Parts(m.name)| >= 2)
  }

  lemma {:induction false} ReadMembersPass(limits: Limits, r: Reading, archive: seq<Member>)
    requires ReadMembers(limits, Ok(r), archive).Ok?
    ensures forall m :: m in archive ==> Passes(m)
    ensures ReadMembers(limits, Ok(r), archive).value.dir <==> r.dir || exists m :: m in archive && MakesDirectory(m)
    decreases |archive|
  {
    if archive != [] {
      var next := ReadMember(limits, r, archive[0]);
      if next.Ok? {
        ReadMemberPasses(limits, r, archive[0]);
        ReadMembersPass(limits, next.value, archive[1..]);
        MembersAre(archive);
      }
    }
  }

  lemma MembersAre(archive: seq<Member>)
    requires archive != []
    ensures forall m :: m in archive <==> m == archive[0] || m in archive[1..]
  {
    assert archive == [archive[0]] + archive[1..];
  }

  /** Whatever the archive: if it is accepted, all its members pass, and it has a profile exactly
      when one of them makes the directory. */
  lemma AcceptedMembers(limits: Limits, decode: Bytes -> Option<Account>, archive: seq<Member>)
    requires Extract(limits, decode, archive).Ok?
    ensures forall m :: m in archive ==> Passes(m)
    ensures Extract(limits, decode, archive).value.profile.Some? <==> exists m :: m in archive && MakesDirectory(m)
  {
    ReadMembersPass(limits, Fresh(), archive);
  }

  lemma AbsoluteSplits(name: string)
    requires name != "" && name[0] == '/'
    ensures |Text.Split(name, '/')| >= 2 && Text.Split(name, '/')[0] == ""
  {
    assert name == "" + ['/'] + name[1..];
    Text.SplitCons("", '/', name[1..]);
  }

  lemma {:induction false} FromTarHas(tar: seq<TarMember>, i: nat)
    requires i < |tar|
    ensures FromTar(tar)[i] == Member(Text.Split(tar[i].name, '/'), tar[i].kind, tar[i].data)
    decreases |tar|
  {
    if i > 0 { FromTarHas(tar[1..], i - 1); }
  }

  /** An archive with an absolute name is refused. */
  lemma {:induction false} AbsoluteNamesAreRefused(limits: Limits, decode: Bytes -> Option<Account>, tar: seq<TarMember>, i: nat)
    requires i < |tar| && tar[i].name != "" && tar[i].name[0] == '/'
    ensures Extract(limits, decode, FromTar(tar)).Err?
  {
    FromTarHas(tar, i);
    AbsoluteSplits(tar[i].name);
    assert FromTar(tar)[i] in FromTar(tar);
    if Extract(limits, decode, FromTar(tar)).Ok? { AcceptedMembers(limits, decode, FromTar(tar)); }
  }

  // ----- the two loops -----

  /** The directories `os.walk` still has to visit, next one first. */
  type Stack = seq<(Path, Listing)>

  function Pruned(path: Path, l: Listing): Stack {
    match l
    case Empty => []
    case Entry(name, node, rest) =>
      (if node.Folder? && !ExcludedDirectory(name) then [(path + [name], node.listing)] else []) + Pruned(path, rest)
  }

  function WalkStack(stack: Stack): seq<Item>
    decreases |stack|
  {
    if stack == [] then [] else Walk(stack[0].0, stack[0].1) + WalkStack(stack[1..])
  }

  function Size(l: Listing): nat {
    match l
    case Empty => 1
    case Entry(_, node, rest) => 1 + Size(rest) + (if node.Folder? then Size(node.listing) else 0)
  }

  function StackSize(stack: Stack): nat
    decreases |stack|
  {
    if stack == [] then 0 else Size(stack[0].1) + StackSize(stack[1..])
  }

  lemma {:induction false} StackConcat(a: Stack, b: Stack)
    ensures WalkStack(a + b) == WalkStack(a) + WalkStack(b) && StackSize(a + b) == StackSize(a) + StackSize(b)
    decreases |a|
  {
    if a == [] {
      assert a + b == b;
    } else {
      assert (a + b)[0] == a[0] && (a + b)[1..] == a[1..] + b;
      StackConcat(a[1..], b);
      Associative(Walk(a[0].0, a[0].1), WalkStack(a[1..]), WalkStack(b));
    }
  }

  lemma {:induction false} PrunedWalk(path: Path, l: Listing)
    ensures WalkStack(Pruned(path, l)) == WalkSubs(path, l) && StackSize(Pruned(path, l)) < Size(l)
    decreases l
  {
    if l.Entry? {
      PrunedWalk(path, l.rest);
      if l.node.Folder? && !ExcludedDirectory(l.name) {
        var first := (path + [l.name], l.node.listing);
        StackConcat([first], Pruned(path, l.rest));
        assert WalkStack([first]) == Walk(first.0, first.1) + WalkStack([]);
      } else {
        assert Pruned(path, l) == Pruned(path, l.rest) && WalkSubs(path, l) == WalkSubs(path, l.rest);
      }
    }
  }

  lemma Associative(a: seq<Item>, b: seq<Item>, c: seq<Item>)
    ensures (a + b) + c == a + (b + c)
  {
  }

  /** Visiting the next directory: its files come first, then the rest of the walk. */
  lemma VisitFirst(path: Path, l: Listing, rest: Stack)
    ensures Walk(path, l) + WalkStack(rest) == Files(path, l) + WalkStack(Pruned(path, l) + rest)
    ensures StackSize(Pruned(path, l) + rest) < Size(l) + StackSize(rest)
  {
    PrunedWalk(path, l);
    StackConcat(Pruned(path, l), rest);
    Associative(Files(path, l), WalkSubs(path, l), WalkStack(rest));
  }

  lemma NextFile(limits: Limits, w: Writing, path: Path, l: Listing, later: seq<Item>)
    requires l.Entry?
    ensures
      var next :=
        if l.node.File? && !ExcludedFile(l.name) then WriteFile(limits, w, Item(path + [l.name], l.node.data)) else Ok(w);
      WriteFiles(limits, Ok(w), Files(path, l) + later) == WriteFiles(limits, next, Files(path, l.rest) + later)
  {
    var rest := Files(path, l.rest) + later;
    if l.node.File? && !ExcludedFile(l.name) {
      var item := Item(path + [l.name], l.node.data);
      assert Files(path, l) + later == [item] + rest;
      assert ([item] + rest)[1..] == rest;
    } else {
      assert Files(path, l) == Files(path, l.rest);
    }
  }

  /** The writer's loop over one directory's files, `later` being what the walk yields after
      them. */
  method WriteDirectory(limits: Limits, path: Path, l: Listing, w: Writing, ghost later: seq<Item>)
    returns (r: Result<Writing>)
    ensures WriteFiles(limits, r, later) == WriteFiles(limits, Ok(w), Files(path, l) + later)
  {
    var cur, archive, count, total := l, w.archive, w.count, w.total;
    while cur.Entry?
      invariant WriteFiles(limits, Ok(Writing(archive, count, total)), Files(path, cur) + later)
        == WriteFiles(limits, Ok(w), Files(path, l) + later)
      decreases cur
    {
      NextFile(limits, Writing(archive, count, total), path, cur, later);
      if cur.node.File? && !ExcludedFile(cur.name) {
        total := total + |cur.node.data|;
        count := count + 1;
        if total > limits.maxBytes { return Err(TooLarge); }
        if count > limits.maxFiles { return Err(TooMany); }
        archive := archive + [ProfileMember(Item(path + [cur.name], cur.node.data))];
      }
      cur := cur.rest;
    }
    assert Files(path, cur) + later == later;
    r := Ok(Writing(archive, count, total));
  }

  /** `_write_compressed_payload` with the walk it drives. */
  method WriteCompressedPayload(limits: Limits, json: Bytes, profile: Option<Listing>) returns (r: Result<seq<Member>>)
    ensures r == Write(limits, json, profile)
  {
    var w := Started(json, profile.Some?);
    if profile.None? {
      return Ok(w.archive);
    }
    var stack: Stack := [([], profile.value)];
    assert WalkStack(stack) == Walk([], profile.value);
    ghost var goal := WriteFiles(limits, Ok(w), ItemsOf(profile));
    while stack != []
      invariant WriteFiles(limits, Ok(w), WalkStack(stack)) == goal
      decreases StackSize(stack)
    {
      var path, l := stack[0].0, stack[0].1;
      var next := Pruned(path, l) + stack[1..];
      VisitFirst(path, l, stack[1..]);
      var written := WriteDirectory(limits, path, l, w, WalkStack(next));
      if written.Err? {
        return Err(written.problem);
      }
      w := written.value;
      stack := next;
    }
    r := Ok(w.archive);
  }

  /** One iteration of the reader's loop, in the order of its checks. */
  method ReadEntry(limits: Limits, before: Reading, m: Member) returns (r: Result<Reading>)
    ensures r == ReadMember(limits, before, m)
  {
    var parts := Parts(m.name);
    if Unsafe(m.name) { return Err(UnsafePath); }
    if m.kind.Directory? {
      if parts != ["profile"] { return Err(UnknownDirectory); }
      if ["profile"] in before.files { return Err(DiskConflict); }
      return Ok(before.(dir := true));
    }
    if !m.kind.Regular? { return Err(NotAFile); }
    if parts != ["account.json"] && parts[0] != "profile" { return Err(UnknownFile); }
    var count := before.count + 1;
    var total := before.total + |m.data|;
    if count > limits.maxFiles { return Err(TooMany); }
    if total > limits.maxBytes { return Err(TooLarge); }
    var counted := before.(count := count, total := total);
    if parts == ["account.json"] {
      if before.account.Some? || |m.data| > MaxManifest { return Err(BadManifest); }
      return Ok(counted.(account := Some(m.data)));
    }
    if Clash(counted, parts) { return Err(DiskConflict); }
    return Ok(counted.(files := before.files[parts := m.data], dir := before.dir || |parts| > 1));
  }

  /** `_extract_payload`. */
  method ExtractPayload(limits: Limits, decode: Bytes -> Option<Account>, archive: seq<Member>)
    returns (r: Result<Extracted>)
    ensures r == Extract(limits, decode, archive)
  {
    var reading := Fresh();
    for k := 0 to |archive|
      invariant ReadMembers(limits, Ok(reading), archive[k..]) == ReadMembers(limits, Ok(Fresh()), archive)
    {
      assert archive[k..][0] == archive[k] && archive[k..][1..] == archive[k + 1..];
      var next := ReadEntry(limits, reading, archive[k]);
      if next.Err? { return Err(next.problem); }
      reading := next.value;
    }
    assert archive[|archive|..] == [];
    r := Conclude(reading, decode);
  }
}
