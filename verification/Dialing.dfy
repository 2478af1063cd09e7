/** Whom an extension denotes, what the contact caches may hold, and when dialling is blocked. */
module Dialing {
  import opened Options
  import opened Telephony

  const MAX_INT32: int := 0x7FFF_FFFF
  const MAX_INT64: int := 0x7FFF_FFFF_FFFF_FFFF
  const NANOSECONDS: int := 1_000_000_000

  predicate IsDigits(s: string) {
    forall i :: 0 <= i < |s| ==> '0' <= s[i] <= '9'
  }

  function Decimal(s: string): nat
    requires IsDigits(s)
  {
    if s == "" then 0 else Decimal(s[..|s| - 1]) * 10 + (s[|s| - 1] as int - '0' as int)
  }

  datatype Chat = PrivateChat(userId: int) | OtherChat

  /** Telegram's own tables, fixed for the run. A phone that is not registered is absent. */
  datatype Directory = Directory(usernames: map<string, Chat>, phones: map<string, int>)

  /** `tg#name`, `+phone` and a plain decimal id: the user an extension stands for. */
  predicate Denotes(dir: Directory, ext: string, user: int) {
    || (|ext| > 3 && ext[..3] == "tg#" && ext[3..] in dir.usernames && dir.usernames[ext[3..]] == PrivateChat(user))
    || (|ext| > 1 && ext[0] == '+' && IsDigits(ext[1..]) && ext[1..] in dir.phones && dir.phones[ext[1..]] == user && user != 0)
    || (ext != "" && IsDigits(ext) && Decimal(ext) == user && user <= 0x7FFF_FFFF_FFFF_FFFF)
  }

  /** An extension denotes at most one user. */
  lemma DenotesOne(dir: Directory, ext: string, u: int, v: int)
    requires Denotes(dir, ext, u) && Denotes(dir, ext, v)
    ensures u == v
  {
    assert |ext| > 3 && ext[..3] == "tg#" ==> ext[0] == 't';
  }

  /** Only a lookup by name or phone consults the directory. */
  datatype Target = ByUsername(name: string) | ByPhone(phone: string) | ById(id: int) | Nobody

  /** The branches of the incoming-call handler, including the range check of `std::stol`. */
  function ParseExtension(ext: string): Target {
    if |ext| > 3 && ext[..3] == "tg#" then ByUsername(ext[3..])
    else if |ext| > 1 && ext[0] == '+' && IsDigits(ext[1..]) then ByPhone(ext[1..])
    else if IsDigits(ext) then
      if ext == "" || Decimal(ext) > MAX_INT64 then Nobody else ById(Decimal(ext))
    else Nobody
  }

  /** Some directory gives the extension a meaning. */
  ghost predicate CanDenote(ext: string) {
    exists dir: Directory, user: int :: Denotes(dir, ext, user)
  }

  /** An extension is refused exactly when it could denote nobody, whatever the directory. */
  lemma RefusedIffMeaningless(ext: string)
    ensures ParseExtension(ext).Nobody? <==> !CanDenote(ext)
  {
    match ParseExtension(ext) {
      case ByUsername(name) => assert Denotes(Directory(map[name := PrivateChat(1)], map[]), ext, 1);
      case ByPhone(phone) => assert Denotes(Directory(map[], map[phone := 1]), ext, 1);
      case ById(id) => assert Denotes(Directory(map[], map[]), ext, id);
      case Nobody =>
    }
  }

  // ---- the caches ----

  datatype Cache = Cache(usernames: map<string, int>, phones: map<string, int>)

  /** `std::map::emplace`: an existing entry is kept. */
  function Emplace(m: map<string, int>, k: string, v: int): map<string, int> {
    if k in m then m else m[k := v]
  }

  /** Every cached id is the one the directory gives. */
  predicate Agrees(dir: Directory, cache: Cache) {
    && (forall n :: n in cache.usernames ==> n in dir.usernames && dir.usernames[n] == PrivateChat(cache.usernames[n]))
    && (forall p :: p in cache.phones ==> p in dir.phones && dir.phones[p] == cache.phones[p] && cache.phones[p] != 0)
  }

  // ---- flood control ----

  /** The new block time, or None when `std::stoi` throws. The sum is unsigned and wraps at 2^32. */
  function BlockAfter(err: TgError, now: int, block: int, extraWait: nat, peerFlood: nat): (r: Option<int>)
    ensures block <= now && r.Some? ==> block <= r.value
  {
    match err
    case RetryAfter(n) =>
      if n > MAX_INT32 then None else Some(now + (n + extraWait) % 0x1_0000_0000 * NANOSECONDS)
    case PeerFlood => Some(now + peerFlood * NANOSECONDS)
    case OtherError => Some(block)
  }
}
