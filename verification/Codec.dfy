/** Requests and replies of the daemon protocol: the encoders of the daemon and
    the client, the decoders of the other side, and their round trips. */
module Codec {
  import opened Bytes
  import opened Wire

  const PEEK_DEFAULT: nat := 64 * 1024
  const MAX_STRINGS: nat := 4096

  // message types
  const CREATE: nat := 1
  const LIST: nat := 2
  const ATTACH: nat := 3
  const KILL: nat := 4
  const RESIZE: nat := 5
  const DETACH: nat := 6
  const PEEK: nat := 7
  const GROUP_NEW: nat := 8
  const GROUP_SET: nat := 9
  const GROUP_ADD: nat := 10
  const GROUP_REMOVE: nat := 11
  const GROUP_LIST: nat := 12
  const ID: nat := 100
  const LIST_REPLY: nat := 101
  const ATTACHED: nat := 102
  const OK: nat := 103
  const ERROR: nat := 104
  const PEEK_REPLY: nat := 105
  const GROUP_ID: nat := 106
  const GROUP_LIST_REPLY: nat := 107

  // --- session_info and LIST_REPLY ---

  datatype SessionInfo = SessionInfo(id: nat, pid: nat, alive: bool, attached: bool, createdAt: nat, cwd: cstring)

  ghost predicate InfoFits(i: SessionInfo) {
    i.id < U64_LIMIT && i.pid < U32_LIMIT && i.createdAt < U64_LIMIT && |i.cwd| < U32_LIMIT
  }

  function Flag(b: bool): nat {
    if b then 1 else 0
  }

  function EncInfo(i: SessionInfo): seq<byte> {
    EncU64(i.id) + (EncU32(i.pid) + (EncU8(Flag(i.alive)) + (EncU8(Flag(i.attached)) + (EncU64(i.createdAt) + EncBlob(i.cwd)))))
  }

  function EncInfos(s: seq<SessionInfo>): seq<byte> {
    if s == [] then [] else EncInfo(s[0]) + EncInfos(s[1..])
  }

  function ListBody(s: seq<SessionInfo>, instance: nat): seq<byte> {
    EncU32(|s|) + (EncInfos(s) + EncU64(instance))
  }

  function GetInfo(d: seq<byte>, c: Cursor): (SessionInfo, Cursor) {
    var (id, c1) := GetU64(d, c);
    var (pid, c2) := GetU32(d, c1);
    var (alive, c3) := GetU8(d, c2);
    var (attached, c4) := GetU8(d, c3);
    var (created, c5) := GetU64(d, c4);
    var (cwd, c6) := GetStr(d, c5);
    (SessionInfo(id, pid, alive != 0, attached != 0, created, UpToNul(OrEmpty(cwd))), c6)
  }

  /** The element loop: it stops after the element that set the error flag. */
  function GetInfos(d: seq<byte>, c: Cursor, n: nat, out: seq<SessionInfo>): (seq<SessionInfo>, Cursor)
    decreases n
  {
    if n == 0 || c.err then (out, c)
    else
      var (i, c1) := GetInfo(d, c);
      GetInfos(d, c1, n - 1, out + [i])
  }

  function ListReply(d: seq<byte>): (seq<SessionInfo>, Cursor) {
    var (n, c) := GetU32(d, Cursor(0, false));
    GetInfos(d, c, n, [])
  }

  /** The optional field behind the session array; 0 when it is absent. */
  function TrailingInstance(d: seq<byte>): nat {
    var c := ListReply(d).1;
    if !c.err && c.pos < |d| then GetU64(d, c).0 else 0
  }

  method ReadInfo(r: Reader) returns (i: SessionInfo)
    modifies r
    ensures (i, r.At()) == GetInfo(r.data, old(r.At()))
  {
    var id := r.U64();
    var pid := r.U32();
    var alive := r.U8();
    var attached := r.U8();
    var created := r.U64();
    var cwd := r.Str();
    i := SessionInfo(id, pid, alive != 0, attached != 0, created, UpToNul(OrEmpty(cwd)));
  }

  /** epimone_client_list_sessions, after the reply has arrived. */
  method ListSessions(body: seq<byte>) returns (out: seq<SessionInfo>)
    ensures out == ListReply(body).0
  {
    hide EncU8, EncU32, EncU64, EncBlob, GetU8, GetU32, GetU64, GetStr, GetBlob;
    var r := new Reader(body);
    var count := r.U32();
    ghost var c0 := r.At();
    out := [];
    var i := 0;
    while i < count && !r.err
      invariant i <= count && r.data == body
      invariant GetInfos(body, r.At(), count - i, out) == GetInfos(body, c0, count, [])
    {
      var info := ReadInfo(r);
      out := out + [info];
      i := i + 1;
    }
  }

  /** epimone_client_instance_id: skip the array to reach the trailing field. */
  method InstanceId(body: seq<byte>) returns (inst: nat)
    ensures inst == TrailingInstance(body)
  {
    hide EncU8, EncU32, EncU64, EncBlob, GetU8, GetU32, GetU64, GetStr, GetBlob;
    var r := new Reader(body);
    var count := r.U32();
    ghost var c0, seen := r.At(), [];
    inst := 0;
    var i := 0;
    while i < count && !r.err
      invariant i <= count && r.data == body
      invariant GetInfos(body, r.At(), count - i, seen) == GetInfos(body, c0, count, [])
    {
      var info := ReadInfo(r);
      seen := seen + [info];
      i := i + 1;
    }
    if !r.err && r.pos < |body| {
      inst := r.U64();
    }
  }

  lemma ReadsInfo(d: seq<byte>, pos: nat, i: SessionInfo)
    requires Has(d, pos, EncInfo(i)) && InfoFits(i)
    ensures GetInfo(d, Cursor(pos, false)) == (i, Cursor(pos + |EncInfo(i)|, false))
  {
    hide EncU8, EncU32, EncU64, EncBlob, GetU8, GetU32, GetU64, GetStr, GetBlob;
    var t5 := EncU64(i.createdAt) + EncBlob(i.cwd);
    var t4 := EncU8(Flag(i.attached)) + t5;
    var t3 := EncU8(Flag(i.alive)) + t4;
    var t2 := EncU32(i.pid) + t3;
    HasConcat(d, pos, EncU64(i.id), t2);
    HasConcat(d, pos + 8, EncU32(i.pid), t3);
    HasConcat(d, pos + 12, EncU8(Flag(i.alive)), t4);
    HasConcat(d, pos + 13, EncU8(Flag(i.attached)), t5);
    HasConcat(d, pos + 14, EncU64(i.createdAt), EncBlob(i.cwd));
    ReadsU64(d, pos, i.id);
    ReadsU32(d, pos + 8, i.pid);
    ReadsU8(d, pos + 12, Flag(i.alive));
    ReadsU8(d, pos + 13, Flag(i.attached));
    ReadsU64(d, pos + 14, i.createdAt);
    ReadsStr(d, pos + 22, i.cwd);
    NoNulKept(i.cwd);
  }

  lemma {:induction false} ReadsInfos(d: seq<byte>, pos: nat, s: seq<SessionInfo>, out: seq<SessionInfo>)
    requires Has(d, pos, EncInfos(s)) && forall i <- s :: InfoFits(i)
    ensures GetInfos(d, Cursor(pos, false), |s|, out) == (out + s, Cursor(pos + |EncInfos(s)|, false))
    decreases |s|
  {
    hide EncU8, EncU32, EncU64, EncBlob, GetU8, GetU32, GetU64, GetStr, GetBlob;
    if s == [] {
      assert out + s == out;
    } else {
      HasConcat(d, pos, EncInfo(s[0]), EncInfos(s[1..]));
      ReadsInfo(d, pos, s[0]);
      ReadsInfos(d, pos + |EncInfo(s[0])|, s[1..], out + [s[0]]);
      assert out + [s[0]] + s[1..] == out + s;
    }
  }

  lemma ReadsList(d: seq<byte>, s: seq<SessionInfo>)
    requires Has(d, 0, EncU32(|s|) + EncInfos(s)) && |s| < U32_LIMIT && forall i <- s :: InfoFits(i)
    ensures ListReply(d) == (s, Cursor(4 + |EncInfos(s)|, false))
  {
    hide EncU8, EncU32, EncU64, EncBlob, GetU8, GetU32, GetU64, GetStr, GetBlob;
    HasConcat(d, 0, EncU32(|s|), EncInfos(s));
    ReadsU32(d, 0, |s|);
    ReadsInfos(d, 4, s, []);
    assert [] + s == s;
  }

  /** LIST_REPLY round-trips for any number of sessions; the cursor lands exactly
      on the trailing instance id, and a client that reads on finds that id. */
  lemma ListRoundTrip(s: seq<SessionInfo>, instance: nat)
    requires |s| < U32_LIMIT && instance < U64_LIMIT && forall i <- s :: InfoFits(i)
    ensures ListReply(ListBody(s, instance)) == (s, Cursor(|ListBody(s, instance)| - 8, false))
    ensures TrailingInstance(ListBody(s, instance)) == instance
  {
    hide EncU8, EncU32, EncU64, EncBlob, GetU8, GetU32, GetU64, GetStr, GetBlob, ListReply;
    var d := ListBody(s, instance);
    var front := EncU32(|s|) + EncInfos(s);
    assert d == front + EncU64(instance);
    assert Has(d, 0, d);
    HasConcat(d, 0, front, EncU64(instance));
    ReadsList(d, s);
    ReadsU64(d, |front|, instance);
  }

  /** A reply from a daemon that predates the instance id still lists its
      sessions, and reads as instance 0. */
  lemma OldListRoundTrip(s: seq<SessionInfo>)
    requires |s| < U32_LIMIT && forall i <- s :: InfoFits(i)
    ensures var d := EncU32(|s|) + EncInfos(s); ListReply(d).0 == s && TrailingInstance(d) == 0
  {
    hide EncU8, EncU32, EncU64, EncBlob, GetU8, GetU32, GetU64, GetStr, GetBlob, ListReply;
    var d := EncU32(|s|) + EncInfos(s);
    assert Has(d, 0, d);
    ReadsList(d, s);
  }

  // --- group_info and GROUP_LIST_REPLY ---

  datatype GroupInfo = GroupInfo(id: nat, createdAt: nat, blob: seq<byte>, members: seq<nat>)

  ghost predicate IdsFit(ids: seq<nat>) {
    forall i :: 0 <= i < |ids| ==> ids[i] < U64_LIMIT
  }

  ghost predicate GroupFits(g: GroupInfo) {
    g.id < U64_LIMIT && g.createdAt < U64_LIMIT && |g.blob| < U32_LIMIT
    && |g.members| < U32_LIMIT && IdsFit(g.members)
  }

  function EncIds(ids: seq<nat>): seq<byte> {
    if ids == [] then [] else EncU64(ids[0]) + EncIds(ids[1..])
  }

  function EncGroup(g: GroupInfo): seq<byte> {
    EncU64(g.id) + (EncU64(g.createdAt) + (EncBlob(g.blob) + (EncU32(|g.members|) + EncIds(g.members))))
  }

  function EncGroups(gs: seq<GroupInfo>): seq<byte> {
    if gs == [] then [] else EncGroup(gs[0]) + EncGroups(gs[1..])
  }

  function GroupListBody(instance: nat, gs: seq<GroupInfo>): seq<byte> {
    EncU64(instance) + (EncU32(|gs|) + EncGroups(gs))
  }

  function GetIds(d: seq<byte>, c: Cursor, n: nat, out: seq<nat>): (seq<nat>, Cursor)
    decreases n
  {
    if n == 0 || c.err then (out, c)
    else
      var (v, c1) := GetU64(d, c);
      GetIds(d, c1, n - 1, out + [v])
  }

  function GetGroup(d: seq<byte>, c: Cursor): (GroupInfo, Cursor) {
    var (id, c1) := GetU64(d, c);
    var (created, c2) := GetU64(d, c1);
    var (blob, c3) := GetBlob(d, c2);
    var (n, c4) := GetU32(d, c3);
    var (members, c5) := GetIds(d, c4, n, []);
    (GroupInfo(id, created, OrEmpty(blob), members), c5)
  }

  function GetGroups(d: seq<byte>, c: Cursor, n: nat, out: seq<GroupInfo>): (seq<GroupInfo>, Cursor)
    decreases n
  {
    if n == 0 || c.err then (out, c)
    else
      var (g, c1) := GetGroup(d, c);
      GetGroups(d, c1, n - 1, out + [g])
  }

  /** The instance id, the groups, and where the cursor stopped. */
  function GroupListReply(d: seq<byte>): (nat, seq<GroupInfo>, Cursor) {
    var (inst, c1) := GetU64(d, Cursor(0, false));
    var (n, c2) := GetU32(d, c1);
    var (gs, c3) := GetGroups(d, c2, n, []);
    (inst, gs, c3)
  }

  method ReadGroup(r: Reader) returns (g: GroupInfo)
    modifies r
    ensures (g, r.At()) == GetGroup(r.data, old(r.At()))
  {
    var id := r.U64();
    var created := r.U64();
    var blob := r.Blob();
    var count := r.U32();
    ghost var c0 := r.At();
    var members: seq<nat> := [];
    var m := 0;
    while m < count && !r.err
      invariant m <= count
      invariant GetIds(r.data, r.At(), count - m, members) == GetIds(r.data, c0, count, [])
    {
      var sid := r.U64();
      members := members + [sid];
      m := m + 1;
    }
    g := GroupInfo(id, created, OrEmpty(blob), members);
  }

  /** epimone_client_list_groups, after the reply has arrived. */
  method ListGroups(body: seq<byte>) returns (inst: nat, out: seq<GroupInfo>)
    ensures inst == GroupListReply(body).0 && out == GroupListReply(body).1
  {
    hide EncU8, EncU32, EncU64, EncBlob, GetU8, GetU32, GetU64, GetStr, GetBlob;
    var r := new Reader(body);
    inst := r.U64();
    var count := r.U32();
    ghost var c0 := r.At();
    out := [];
    var i := 0;
    while i < count && !r.err
      invariant i <= count && r.data == body
      invariant GetGroups(body, r.At(), count - i, out) == GetGroups(body, c0, count, [])
    {
      var g := ReadGroup(r);
      out := out + [g];
      i := i + 1;
    }
  }

  lemma {:induction false} ReadsIds(d: seq<byte>, pos: nat, ids: seq<nat>, out: seq<nat>)
    requires Has(d, pos, EncIds(ids)) && IdsFit(ids)
    ensures GetIds(d, Cursor(pos, false), |ids|, out) == (out + ids, Cursor(pos + |EncIds(ids)|, false))
    decreases |ids|
  {
    hide EncU8, EncU32, EncU64, EncBlob, GetU8, GetU32, GetU64, GetStr, GetBlob;
    if ids == [] {
      assert out + ids == out;
    } else {
      HasConcat(d, pos, EncU64(ids[0]), EncIds(ids[1..]));
      ReadsU64(d, pos, ids[0]);
      ReadsIds(d, pos + 8, ids[1..], out + [ids[0]]);
      assert out + [ids[0]] + ids[1..] == out + ids;
    }
  }

  lemma ReadsGroup(d: seq<byte>, pos: nat, g: GroupInfo)
    requires Has(d, pos, EncGroup(g)) && GroupFits(g)
    ensures GetGroup(d, Cursor(pos, false)) == (g, Cursor(pos + |EncGroup(g)|, false))
  {
    hide EncU8, EncU32, EncU64, EncBlob, GetU8, GetU32, GetU64, GetStr, GetBlob;
    var t4 := EncU32(|g.members|) + EncIds(g.members);
    var t3 := EncBlob(g.blob) + t4;
    var t2 := EncU64(g.createdAt) + t3;
    HasConcat(d, pos, EncU64(g.id), t2);
    HasConcat(d, pos + 8, EncU64(g.createdAt), t3);
    HasConcat(d, pos + 16, EncBlob(g.blob), t4);
    HasConcat(d, pos + 20 + |g.blob|, EncU32(|g.members|), EncIds(g.members));
    ReadsU64(d, pos, g.id);
    ReadsU64(d, pos + 8, g.createdAt);
    ReadsBlob(d, pos + 16, g.blob);
    ReadsU32(d, pos + 20 + |g.blob|, |g.members|);
    ReadsIds(d, pos + 24 + |g.blob|, g.members, []);
    assert [] + g.members == g.members;
  }

  lemma {:induction false} ReadsGroups(d: seq<byte>, pos: nat, gs: seq<GroupInfo>, out: seq<GroupInfo>)
    requires Has(d, pos, EncGroups(gs)) && forall g <- gs :: GroupFits(g)
    ensures GetGroups(d, Cursor(pos, false), |gs|, out) == (out + gs, Cursor(pos + |EncGroups(gs)|, false))
    decreases |gs|
  {
    hide EncU8, EncU32, EncU64, EncBlob, GetU8, GetU32, GetU64, GetStr, GetBlob;
    if gs == [] {
      assert out + gs == out;
    } else {
      HasConcat(d, pos, EncGroup(gs[0]), EncGroups(gs[1..]));
      ReadsGroup(d, pos, gs[0]);
      ReadsGroups(d, pos + |EncGroup(gs[0])|, gs[1..], out + [gs[0]]);
      assert out + [gs[0]] + gs[1..] == out + gs;
    }
  }

  /** GROUP_LIST_REPLY round-trips for any number of groups and members, and is
      consumed to its last byte. */
  lemma GroupListRoundTrip(instance: nat, gs: seq<GroupInfo>)
    requires instance < U64_LIMIT && |gs| < U32_LIMIT && forall g <- gs :: GroupFits(g)
    ensures GroupListReply(GroupListBody(instance, gs)) == (instance, gs, Cursor(|GroupListBody(instance, gs)|, false))
  {
    hide EncU8, EncU32, EncU64, EncBlob, GetU8, GetU32, GetU64, GetStr, GetBlob;
    var d := GroupListBody(instance, gs);
    var rest := EncU32(|gs|) + EncGroups(gs);
    assert Has(d, 0, EncU64(instance) + rest);
    HasConcat(d, 0, EncU64(instance), rest);
    HasConcat(d, 8, EncU32(|gs|), EncGroups(gs));
    ReadsU64(d, 0, instance);
    ReadsU32(d, 8, |gs|);
    ReadsGroups(d, 12, gs, []);
    assert [] + gs == gs;
  }

  // --- CREATE ---

  datatype CreateArgs = CreateArgs(cwd: cstring, argv: seq<cstring>, env: seq<cstring>, exec: cstring)

  ghost predicate StringsFit(a: seq<cstring>) {
    |a| <= MAX_STRINGS && forall s <- a :: |s| < U32_LIMIT
  }

  ghost predicate CreateFits(a: CreateArgs) {
    |a.cwd| < U32_LIMIT && StringsFit(a.argv) && StringsFit(a.env) && |a.exec| < U32_LIMIT
  }

  function EncStrs(a: seq<cstring>): seq<byte> {
    if a == [] then [] else EncBlob(a[0]) + EncStrs(a[1..])
  }

  function EncStrArray(a: seq<cstring>): seq<byte> {
    EncU32(|a|) + EncStrs(a)
  }

  /** The body without, and with, the optional trailing executable path. */
  function CreateShort(a: CreateArgs): seq<byte> {
    EncBlob(a.cwd) + (EncStrArray(a.argv) + EncStrArray(a.env))
  }

  function CreateBody(a: CreateArgs): seq<byte> {
    CreateShort(a) + EncBlob(a.exec)
  }

  function GetStrs(d: seq<byte>, c: Cursor, n: nat, out: seq<cstring>): (seq<cstring>, Cursor)
    decreases n
  {
    if n == 0 then (out, c)
    else
      var (s, c1) := GetStr(d, c);
      if s.Null? then ([], c1.(err := true)) else GetStrs(d, c1, n - 1, out + [UpToNul(s.bytes)])
  }

  /** read_str_array: an error already set makes the count unusable; an absurd
      count is an error of its own. */
  function GetStrArray(d: seq<byte>, c: Cursor): (seq<cstring>, Cursor) {
    var (n, c1) := GetU32(d, c);
    if c1.err || n == 0 then ([], c1)
    else if n > MAX_STRINGS then ([], c1.(err := true))
    else GetStrs(d, c1, n, [])
  }

  datatype Decoded<T> = Malformed | Ok(value: T)

  function DecodeCreate(d: seq<byte>): Decoded<CreateArgs> {
    var (cwd, c1) := GetStr(d, Cursor(0, false));
    var (argv, c2) := GetStrArray(d, c1);
    var (env, c3) := GetStrArray(d, c2);
    var (exec, c4) := if !c3.err && c3.pos < |d| then GetStr(d, c3) else (Null, c3);
    if c4.err then Malformed else Ok(CreateArgs(UpToNul(OrEmpty(cwd)), argv, env, UpToNul(OrEmpty(exec))))
  }

  method ReadStrArray(r: Reader) returns (a: seq<cstring>)
    modifies r
    ensures (a, r.At()) == GetStrArray(r.data, old(r.At()))
  {
    var count := r.U32();
    if r.err || count == 0 {
      return [];
    }
    if count > MAX_STRINGS {
      r.err := true;
      return [];
    }
    ghost var c0 := r.At();
    a := [];
    var i := 0;
    while i < count
      invariant i <= count
      invariant GetStrs(r.data, r.At(), count - i, a) == GetStrs(r.data, c0, count, [])
    {
      var s := r.Str();
      if s.Null? {
        r.err := true;
        return [];
      }
      a := a + [UpToNul(s.bytes)];
      i := i + 1;
    }
  }

  /** The reading half of handle_create. */
  method ReadCreate(body: seq<byte>) returns (q: Decoded<CreateArgs>)
    ensures q == DecodeCreate(body)
  {
    var r := new Reader(body);
    var cwd := r.Str();
    var argv := ReadStrArray(r);
    var env := ReadStrArray(r);
    var exec := Null;
    if !r.err && r.pos < |body| {
      exec := r.Str();
    }
    q := if r.err then Malformed else Ok(CreateArgs(UpToNul(OrEmpty(cwd)), argv, env, UpToNul(OrEmpty(exec))));
  }

  lemma {:induction false} ReadsStrs(d: seq<byte>, pos: nat, a: seq<cstring>, out: seq<cstring>)
    requires Has(d, pos, EncStrs(a)) && forall s <- a :: |s| < U32_LIMIT
    ensures GetStrs(d, Cursor(pos, false), |a|, out) == (out + a, Cursor(pos + |EncStrs(a)|, false))
    decreases |a|
  {
    hide EncU8, EncU32, EncU64, EncBlob, GetU8, GetU32, GetU64, GetStr, GetBlob, Has, UpToNul;
    if a == [] {
      assert out + a == out;
    } else {
      HasConcat(d, pos, EncBlob(a[0]), EncStrs(a[1..]));
      ReadsStr(d, pos, a[0]);
      NoNulKept(a[0]);
      ReadsStrs(d, pos + 4 + |a[0]|, a[1..], out + [a[0]]);
      assert out + [a[0]] + a[1..] == out + a;
    }
  }

  lemma ReadsStrArray(d: seq<byte>, pos: nat, a: seq<cstring>)
    requires Has(d, pos, EncStrArray(a)) && StringsFit(a)
    ensures GetStrArray(d, Cursor(pos, false)) == (a, Cursor(pos + |EncStrArray(a)|, false))
  {
    hide EncU8, EncU32, EncU64, EncBlob, GetU8, GetU32, GetU64, GetStr, GetBlob;
    HasConcat(d, pos, EncU32(|a|), EncStrs(a));
    ReadsU32(d, pos, |a|);
    if a != [] {
      ReadsStrs(d, pos + 4, a, []);
      assert [] + a == a;
    }
  }

  /** CREATE round-trips whether or not the frame carries the optional
      executable path; leaving it out means the empty path. */
  lemma CreateRoundTrip(a: CreateArgs)
    requires CreateFits(a)
    ensures DecodeCreate(CreateBody(a)) == Ok(a)
    ensures DecodeCreate(CreateShort(a)) == Ok(a.(exec := []))
  {
    hide EncU32, EncBlob, GetU32, GetStr, GetStrArray, EncStrArray, CreateShort;
    var d := CreateBody(a);
    assert Has(d, 0, d);
    HasConcat(d, 0, CreateShort(a), EncBlob(a.exec));
    ReadsCreateShort(d, a);
    ReadsStr(d, |CreateShort(a)|, a.exec);
    NoNulKept(a.cwd);
    NoNulKept(a.exec);
    assert Has(CreateShort(a), 0, CreateShort(a));
    ReadsCreateShort(CreateShort(a), a);
  }

  lemma ReadsCreateShort(d: seq<byte>, a: CreateArgs)
    requires Has(d, 0, CreateShort(a)) && CreateFits(a)
    ensures GetStr(d, Cursor(0, false)) == (Bytes(a.cwd), Cursor(4 + |a.cwd|, false))
    ensures GetStrArray(d, Cursor(4 + |a.cwd|, false)) == (a.argv, Cursor(4 + |a.cwd| + |EncStrArray(a.argv)|, false))
    ensures GetStrArray(d, Cursor(4 + |a.cwd| + |EncStrArray(a.argv)|, false)) == (a.env, Cursor(|CreateShort(a)|, false))
  {
    hide EncU32, EncBlob, GetU32, GetStr, GetStrArray, EncStrArray, Has;
    var arrays := EncStrArray(a.argv) + EncStrArray(a.env);
    HasConcat(d, 0, EncBlob(a.cwd), arrays);
    HasConcat(d, 4 + |a.cwd|, EncStrArray(a.argv), EncStrArray(a.env));
    ReadsStr(d, 0, a.cwd);
    ReadsStrArray(d, 4 + |a.cwd|, a.argv);
    ReadsStrArray(d, 4 + |a.cwd| + |EncStrArray(a.argv)|, a.env);
  }

  // --- all requests ---

  datatype Request =
    | Create(args: CreateArgs)
    | List
    | Attach(id: nat)
    | Kill(id: nat)
    | Resize(id: nat, rows: nat, cols: nat)
    | Detach(id: nat)
    | Peek(id: nat, maxBytes: nat)
    | GroupNew(blob: seq<byte>)
    | GroupSet(gid: nat, blob: seq<byte>)
    | GroupAdd(gid: nat, sid: nat)
    | GroupRemove(sid: nat)
    | GroupList
    | BadRequest(what: nat)
    | Unknown

  function ReadId(d: seq<byte>): Decoded<nat> {
    var (v, c) := GetU64(d, Cursor(0, false));
    if c.err then Malformed else Ok(v)
  }

  /** What each handler makes of a frame body before it acts. */
  function DecodeRequest(kind: nat, d: seq<byte>): Request {
    var id := ReadId(d);
    if kind == CREATE then
      var q := DecodeCreate(d);
      if q.Malformed? then BadRequest(kind) else Create(q.value)
    else if kind == LIST then List
    else if kind == ATTACH then (if id.Ok? then Attach(id.value) else BadRequest(kind))
    else if kind == KILL then (if id.Ok? then Kill(id.value) else BadRequest(kind))
    else if kind == DETACH then (if id.Ok? then Detach(id.value) else BadRequest(kind))
    else if kind == GROUP_REMOVE then (if id.Ok? then GroupRemove(id.value) else BadRequest(kind))
    else if kind == RESIZE then
      var (v, c1) := GetU64(d, Cursor(0, false));
      var (rows, c2) := GetU16(d, c1);
      var (cols, c3) := GetU16(d, c2);
      if c3.err then BadRequest(kind) else Resize(v, rows, cols)
    else if kind == PEEK then
      var (v, c1) := GetU64(d, Cursor(0, false));
      var (m, c2) := if !c1.err && c1.pos < |d| then GetU32(d, c1) else (PEEK_DEFAULT, c1);
      if c2.err then BadRequest(kind) else Peek(v, m)
    else if kind == GROUP_NEW then
      var (b, c) := if |d| > 0 then GetBlob(d, Cursor(0, false)) else (Null, Cursor(0, false));
      if c.err then BadRequest(kind) else GroupNew(OrEmpty(b))
    else if kind == GROUP_SET then
      var (v, c1) := GetU64(d, Cursor(0, false));
      var (b, c2) := GetBlob(d, c1);
      if c2.err then BadRequest(kind) else GroupSet(v, OrEmpty(b))
    else if kind == GROUP_ADD then
      var (v, c1) := GetU64(d, Cursor(0, false));
      var (w, c2) := GetU64(d, c1);
      if c2.err then BadRequest(kind) else GroupAdd(v, w)
    else if kind == GROUP_LIST then GroupList
    else Unknown
  }

  function RequestKind(q: Request): nat {
    match q
    case Create(_) => CREATE
    case List => LIST
    case Attach(_) => ATTACH
    case Kill(_) => KILL
    case Resize(_, _, _) => RESIZE
    case Detach(_) => DETACH
    case Peek(_, _) => PEEK
    case GroupNew(_) => GROUP_NEW
    case GroupSet(_, _) => GROUP_SET
    case GroupAdd(_, _) => GROUP_ADD
    case GroupRemove(_) => GROUP_REMOVE
    case GroupList => GROUP_LIST
    case BadRequest(k) => k
    case Unknown => 0
  }

  /** The body the client builds for a request. */
  function RequestBody(q: Request): seq<byte> {
    match q
    case Create(a) => CreateBody(a)
    case Attach(id) => EncU64(id)
    case Kill(id) => EncU64(id)
    case Detach(id) => EncU64(id)
    case GroupRemove(id) => EncU64(id)
    case Resize(id, rows, cols) => EncU64(id) + (EncU16(rows) + EncU16(cols))
    case Peek(id, m) => EncU64(id) + EncU32(m)
    case GroupNew(b) => EncBlob(b)
    case GroupSet(gid, b) => EncU64(gid) + EncBlob(b)
    case GroupAdd(gid, sid) => EncU64(gid) + EncU64(sid)
    case _ => []
  }

  ghost predicate RequestFits(q: Request) {
    match q
    case Create(a) => CreateFits(a)
    case Attach(id) => id < U64_LIMIT
    case Kill(id) => id < U64_LIMIT
    case Detach(id) => id < U64_LIMIT
    case GroupRemove(id) => id < U64_LIMIT
    case Resize(id, rows, cols) => id < U64_LIMIT && rows < U16_LIMIT && cols < U16_LIMIT
    case Peek(id, m) => id < U64_LIMIT && m < U32_LIMIT
    case GroupNew(b) => |b| < U32_LIMIT
    case GroupSet(gid, b) => gid < U64_LIMIT && |b| < U32_LIMIT
    case GroupAdd(gid, sid) => gid < U64_LIMIT && sid < U64_LIMIT
    case List => true
    case GroupList => true
    case BadRequest(_) => false
    case Unknown => false
  }

  /** The daemon decodes every request the client can build to that request. */
  lemma RequestRoundTrip(q: Request)
    requires RequestFits(q)
    ensures DecodeRequest(RequestKind(q), RequestBody(q)) == q
  {
    hide EncU8, EncU16, EncU32, EncU64, EncBlob, GetU16, GetU32, GetU64, GetBlob, DecodeCreate, CreateBody;
    var d := RequestBody(q);
    assert Has(d, 0, d);
    match q
    case Create(a) => CreateRoundTrip(a);
    case Attach(id) => ReadsU64(d, 0, id);
    case Kill(id) => ReadsU64(d, 0, id);
    case Detach(id) => ReadsU64(d, 0, id);
    case GroupRemove(id) => ReadsU64(d, 0, id);
    case Resize(id, rows, cols) =>
      HasConcat(d, 0, EncU64(id), EncU16(rows) + EncU16(cols));
      HasConcat(d, 8, EncU16(rows), EncU16(cols));
      ReadsU64(d, 0, id);
      ReadsU16(d, 8, rows);
      ReadsU16(d, 10, cols);
    case Peek(id, m) =>
      HasConcat(d, 0, EncU64(id), EncU32(m));
      ReadsU64(d, 0, id);
      ReadsU32(d, 8, m);
    case GroupNew(b) => ReadsBlob(d, 0, b);
    case GroupSet(gid, b) =>
      HasConcat(d, 0, EncU64(gid), EncBlob(b));
      ReadsU64(d, 0, gid);
      ReadsBlob(d, 8, b);
    case GroupAdd(gid, sid) =>
      HasConcat(d, 0, EncU64(gid), EncU64(sid));
      ReadsU64(d, 0, gid);
      ReadsU64(d, 8, sid);
    case List =>
    case GroupList =>
  }

  // --- where the fields stand ---

  /** The layout of session_info, by byte offset. */
  lemma InfoLayout(i: SessionInfo)
    requires InfoFits(i)
    ensures var d := EncInfo(i);
      && |d| == 26 + |i.cwd| && GetU64(d, Cursor(0, false)).0 == i.id && GetU32(d, Cursor(8, false)).0 == i.pid
      && GetU8(d, Cursor(12, false)).0 == Flag(i.alive) && GetU8(d, Cursor(13, false)).0 == Flag(i.attached)
      && GetU64(d, Cursor(14, false)).0 == i.createdAt && GetStr(d, Cursor(22, false)).0 == Bytes(i.cwd)
  {
    hide EncU8, EncU32, EncU64, EncBlob, GetU8, GetU32, GetU64, GetStr, GetBlob;
    var d := EncInfo(i);
    var t5 := EncU64(i.createdAt) + EncBlob(i.cwd);
    var t4 := EncU8(Flag(i.attached)) + t5;
    var t3 := EncU8(Flag(i.alive)) + t4;
    assert Has(d, 0, d);
    HasConcat(d, 0, EncU64(i.id), EncU32(i.pid) + t3);
    HasConcat(d, 8, EncU32(i.pid), t3);
    HasConcat(d, 12, EncU8(Flag(i.alive)), t4);
    HasConcat(d, 13, EncU8(Flag(i.attached)), t5);
    HasConcat(d, 14, EncU64(i.createdAt), EncBlob(i.cwd));
    ReadsU64(d, 0, i.id);
    ReadsU32(d, 8, i.pid);
    ReadsU8(d, 12, Flag(i.alive));
    ReadsU8(d, 13, Flag(i.attached));
    ReadsU64(d, 14, i.createdAt);
    ReadsStr(d, 22, i.cwd);
  }

  /** The layout of group_info up to its members, and of the two replies. */
  lemma GroupLayout(g: GroupInfo, instance: nat, gs: seq<GroupInfo>, s: seq<SessionInfo>)
    requires GroupFits(g) && instance < U64_LIMIT && |gs| < U32_LIMIT && |s| < U32_LIMIT
    ensures var d := EncGroup(g);
      && GetU64(d, Cursor(0, false)).0 == g.id && GetU64(d, Cursor(8, false)).0 == g.createdAt
      && OrEmpty(GetBlob(d, Cursor(16, false)).0) == g.blob && GetU32(d, Cursor(20 + |g.blob|, false)).0 == |g.members|
    ensures GetU64(GroupListBody(instance, gs), Cursor(0, false)).0 == instance
    ensures GetU32(GroupListBody(instance, gs), Cursor(8, false)).0 == |gs| && GetU32(ListBody(s, instance), Cursor(0, false)).0 == |s|
  {
    hide EncU8, EncU32, EncU64, EncBlob, GetU8, GetU32, GetU64, GetStr, GetBlob;
    var d, l, k := EncGroup(g), GroupListBody(instance, gs), ListBody(s, instance);
    assert Has(d, 0, d) && Has(l, 0, l) && Has(k, 0, k);
    var t4 := EncU32(|g.members|) + EncIds(g.members);
    HasConcat(d, 0, EncU64(g.id), EncU64(g.createdAt) + (EncBlob(g.blob) + t4));
    HasConcat(d, 8, EncU64(g.createdAt), EncBlob(g.blob) + t4);
    HasConcat(d, 16, EncBlob(g.blob), t4);
    HasConcat(d, 20 + |g.blob|, EncU32(|g.members|), EncIds(g.members));
    HasConcat(l, 0, EncU64(instance), EncU32(|gs|) + EncGroups(gs));
    HasConcat(l, 8, EncU32(|gs|), EncGroups(gs));
    HasConcat(k, 0, EncU32(|s|), EncInfos(s) + EncU64(instance));
    ReadsU64(d, 0, g.id);
    ReadsU64(d, 8, g.createdAt);
    ReadsBlob(d, 16, g.blob);
    ReadsU32(d, 20 + |g.blob|, |g.members|);
    ReadsU64(l, 0, instance);
    ReadsU32(l, 8, |gs|);
    ReadsU32(k, 0, |s|);
  }

  /** The layout of the requests with more than one field. */
  lemma RequestLayout(q: Request)
    requires RequestFits(q)
    ensures q.Resize? ==> var d := RequestBody(q);
      && |d| == 12 && GetU64(d, Cursor(0, false)).0 == q.id && GetU16(d, Cursor(8, false)).0 == q.rows && GetU16(d, Cursor(10, false)).0 == q.cols
    ensures q.Peek? ==> var d := RequestBody(q); |d| == 12 && GetU64(d, Cursor(0, false)).0 == q.id && GetU32(d, Cursor(8, false)).0 == q.maxBytes
    ensures q.GroupSet? ==> var d := RequestBody(q);
      |d| == 12 + |q.blob| && GetU64(d, Cursor(0, false)).0 == q.gid && OrEmpty(GetBlob(d, Cursor(8, false)).0) == q.blob
    ensures q.GroupAdd? ==> var d := RequestBody(q);
      |d| == 16 && GetU64(d, Cursor(0, false)).0 == q.gid && GetU64(d, Cursor(8, false)).0 == q.sid
    ensures q.Create? ==> GetStr(RequestBody(q), Cursor(0, false)).0 == Bytes(q.args.cwd)
  {
    hide EncU16, EncU32, EncU64, EncBlob, GetU16, GetU32, GetU64, GetBlob, GetStr, CreateBody, CreateShort, EncStrArray;
    var d := RequestBody(q);
    assert Has(d, 0, d);
    if q.Resize? {
      HasConcat(d, 0, EncU64(q.id), EncU16(q.rows) + EncU16(q.cols));
      HasConcat(d, 8, EncU16(q.rows), EncU16(q.cols));
      ReadsU64(d, 0, q.id);
      ReadsU16(d, 8, q.rows);
      ReadsU16(d, 10, q.cols);
    } else if q.Peek? {
      HasConcat(d, 0, EncU64(q.id), EncU32(q.maxBytes));
      ReadsU64(d, 0, q.id);
      ReadsU32(d, 8, q.maxBytes);
    } else if q.GroupSet? {
      HasConcat(d, 0, EncU64(q.gid), EncBlob(q.blob));
      ReadsU64(d, 0, q.gid);
      ReadsBlob(d, 8, q.blob);
    } else if q.GroupAdd? {
      HasConcat(d, 0, EncU64(q.gid), EncU64(q.sid));
      ReadsU64(d, 0, q.gid);
      ReadsU64(d, 8, q.sid);
    } else if q.Create? {
      CreateParts(d, q.args);
      ReadsStr(d, 0, q.args.cwd);
    }
  }

  // --- bodies that are too short, or too long ---

  lemma HasInFront(d: seq<byte>, pos: nat, x: seq<byte>, k: nat)
    requires Has(d, pos, x) && pos + |x| <= k <= |d|
    ensures Has(d[..k], pos, x)
  {
    assert d[..k][pos..pos + |x|] == d[pos..pos + |x|];
  }

  /** A block that is cut short cannot be read. */
  lemma CutBlock(d: seq<byte>, pos: nat, b: seq<byte>, k: nat)
    requires Has(d, pos, EncBlob(b)) && |b| < U32_LIMIT && pos <= k < pos + 4 + |b|
    ensures GetStr(d[..k], Cursor(pos, false)).0.Null? && GetStr(d[..k], Cursor(pos, false)).1.err
    ensures GetBlob(d[..k], Cursor(pos, false)).1.err
  {
    hide EncU32, WordAt;
    if pos + 4 <= k {
      HasConcat(d, pos, EncU32(|b|), b);
      HasInFront(d, pos, EncU32(|b|), k);
      hide GetU32;
      ReadsU32(d[..k], pos, |b|);
    }
  }

  lemma {:induction false} CutStrs(d: seq<byte>, pos: nat, a: seq<cstring>, k: nat, out: seq<cstring>)
    requires Has(d, pos, EncStrs(a)) && (forall s <- a :: |s| < U32_LIMIT) && pos <= k < pos + |EncStrs(a)|
    ensures GetStrs(d[..k], Cursor(pos, false), |a|, out).1.err
    decreases |a|
  {
    hide EncBlob, GetStr, UpToNul, Has;
    if a != [] {
      HasConcat(d, pos, EncBlob(a[0]), EncStrs(a[1..]));
      if k < pos + 4 + |a[0]| {
        CutBlock(d, pos, a[0], k);
      } else {
        HasBounds(d, pos, EncStrs(a));
        HasInFront(d, pos, EncBlob(a[0]), k);
        ReadsStr(d[..k], pos, a[0]);
        NoNulKept(a[0]);
        CutStrs(d, pos + 4 + |a[0]|, a[1..], k, out + [a[0]]);
      }
    }
  }

  lemma HasBounds(d: seq<byte>, pos: nat, x: seq<byte>)
    requires Has(d, pos, x)
    ensures pos + |x| <= |d|
  {
  }

  lemma CutStrArray(d: seq<byte>, pos: nat, a: seq<cstring>, k: nat)
    requires Has(d, pos, EncStrArray(a)) && StringsFit(a) && pos <= k < pos + |EncStrArray(a)|
    ensures GetStrArray(d[..k], Cursor(pos, false)).1.err
  {
    hide EncU32, EncBlob, GetStr, GetStrs, WordAt;
    HasConcat(d, pos, EncU32(|a|), EncStrs(a));
    if pos + 4 <= k {
      HasInFront(d, pos, EncU32(|a|), k);
      hide GetU32, Has;
      ReadsU32(d[..k], pos, |a|);
      CutStrs(d, pos + 4, a, k, []);
    }
  }

  /** An error stays an error. */
  lemma ErrorStays(d: seq<byte>, c: Cursor)
    requires c.err
    ensures GetStr(d, c).1.err && GetStrArray(d, c).1.err
  {
    hide UpToNul, WordAt;
  }

  /** A CREATE cut short anywhere is malformed, but right behind the environment,
      where the optional executable path begins. */
  lemma CutCreate(a: CreateArgs, k: nat)
    requires CreateFits(a) && k < |CreateBody(a)|
    ensures DecodeCreate(CreateBody(a)[..k]) == if k == |CreateShort(a)| then Ok(a.(exec := [])) else Malformed
  {
    hide EncU32, EncBlob, GetU32, GetStr, GetStrArray, EncStrArray, Has, UpToNul;
    var d := CreateBody(a);
    var e := d[..k];
    var n0, n1, n2 := 4 + |a.cwd|, 4 + |a.cwd| + |EncStrArray(a.argv)|, |CreateShort(a)|;
    CreateParts(d, a);
    var (_, c1) := GetStr(e, Cursor(0, false));
    var (_, c2) := GetStrArray(e, c1);
    var (_, c3) := GetStrArray(e, c2);
    if k < n0 {
      CutBlock(d, 0, a.cwd, k);
      ErrorStays(e, c1);
      ErrorStays(e, c2);
    } else {
      HasInFront(d, 0, EncBlob(a.cwd), k);
      ReadsStr(e, 0, a.cwd);
      if k < n1 {
        CutStrArray(d, n0, a.argv, k);
        ErrorStays(e, c2);
      } else {
        HasInFront(d, n0, EncStrArray(a.argv), k);
        ReadsStrArray(e, n0, a.argv);
        if k < n2 {
          CutStrArray(d, n1, a.env, k);
        } else if k == n2 {
          assert e == CreateShort(a);
          CreateRoundTrip(a);
        } else {
          HasInFront(d, n1, EncStrArray(a.env), k);
          ReadsStrArray(e, n1, a.env);
          CutBlock(d, n2, a.exec, k);
        }
      }
    }
  }

  /** More strings than the bound are refused, whatever follows. */
  lemma AbsurdCount(d: seq<byte>, cwd: cstring, n: nat)
    requires MAX_STRINGS < n < U32_LIMIT && |cwd| < U32_LIMIT && Has(d, 0, EncBlob(cwd)) && Has(d, 4 + |cwd|, EncU32(n))
    ensures DecodeCreate(d) == Malformed
  {
    hide EncU32, EncBlob, GetU32, GetStr, Has, UpToNul;
    ReadsStr(d, 0, cwd);
    ReadsU32(d, 4 + |cwd|, n);
    var (_, c2) := GetStrArray(d, Cursor(4 + |cwd|, false));
    var (_, c3) := GetStrArray(d, c2);
    ErrorStays(d, c2);
  }

  lemma CreateParts(d: seq<byte>, a: CreateArgs)
    requires d == CreateBody(a)
    ensures Has(d, 0, EncBlob(a.cwd)) && Has(d, 4 + |a.cwd|, EncStrArray(a.argv))
    ensures Has(d, 4 + |a.cwd| + |EncStrArray(a.argv)|, EncStrArray(a.env)) && Has(d, |CreateShort(a)|, EncBlob(a.exec))
    ensures |CreateShort(a)| == 4 + |a.cwd| + |EncStrArray(a.argv)| + |EncStrArray(a.env)| && |d| == |CreateShort(a)| + 4 + |a.exec|
    ensures d[..|CreateShort(a)|] == CreateShort(a)
  {
    hide EncBlob, EncStrArray;
    assert Has(d, 0, d);
    var arrays := EncStrArray(a.argv) + EncStrArray(a.env);
    HasConcat(d, 0, CreateShort(a), EncBlob(a.exec));
    HasConcat(d, 0, EncBlob(a.cwd), arrays);
    HasConcat(d, 4 + |a.cwd|, EncStrArray(a.argv), EncStrArray(a.env));
  }

  /** For the bodies without a variable part the length alone decides. */
  lemma ShortBodies(kind: nat, d: seq<byte>)
    ensures kind in {ATTACH, KILL, DETACH, GROUP_REMOVE} ==> (DecodeRequest(kind, d) == BadRequest(kind) <==> |d| < 8)
    ensures DecodeRequest(RESIZE, d) == BadRequest(RESIZE) <==> |d| < 12
    ensures DecodeRequest(PEEK, d) == BadRequest(PEEK) <==> |d| < 8 || 8 < |d| < 12
    ensures DecodeRequest(GROUP_ADD, d) == BadRequest(GROUP_ADD) <==> |d| < 16
    ensures DecodeRequest(LIST, d) == List && DecodeRequest(GROUP_LIST, d) == GroupList
  {
    hide DecodeCreate, GetBlob, WordAt, HalfAt;
  }

  /** Every request cut short is refused as malformed, but for the three optional
      fields: a PEEK of an id alone asks for the default number of bytes, an empty
      GROUP_NEW for an empty blob, and a CREATE may end behind its environment. */
  lemma CutRequest(q: Request, k: nat)
    requires RequestFits(q) && k < |RequestBody(q)|
    ensures DecodeRequest(RequestKind(q), RequestBody(q)[..k]) ==
      if q.Peek? && k == 8 then Peek(q.id, PEEK_DEFAULT)
      else if q.GroupNew? && k == 0 then GroupNew([])
      else if q.Create? && k == |CreateShort(q.args)| then Create(q.args.(exec := []))
      else BadRequest(RequestKind(q))
  {
    hide EncU16, EncU32, EncU64, EncBlob, GetU16, GetU32, GetU64, GetBlob, DecodeCreate, CreateBody, CreateShort, CreateFits;
    var d := RequestBody(q);
    assert Has(d, 0, d);
    ShortBodies(RequestKind(q), d[..k]);
    match q
    case Create(a) => CutCreate(a, k);
    case Peek(id, m) =>
      HasConcat(d, 0, EncU64(id), EncU32(m));
      if k == 8 {
        HasInFront(d, 0, EncU64(id), k);
        ReadsU64(d[..k], 0, id);
      }
    case GroupNew(b) =>
      if k > 0 { CutBlock(d, 0, b, k); }
    case GroupSet(gid, b) => CutGroupSet(gid, b, k);
    case _ =>
  }

  lemma CutGroupSet(gid: nat, b: seq<byte>, k: nat)
    requires gid < U64_LIMIT && |b| < U32_LIMIT && k < 12 + |b|
    ensures DecodeRequest(GROUP_SET, (EncU64(gid) + EncBlob(b))[..k]) == BadRequest(GROUP_SET)
  {
    hide EncU64, EncBlob, WordAt, DecodeCreate;
    var d := EncU64(gid) + EncBlob(b);
    assert Has(d, 0, d);
    HasConcat(d, 0, EncU64(gid), EncBlob(b));
    if k >= 8 {
      HasInFront(d, 0, EncU64(gid), k);
      ReadsU64(d[..k], 0, gid);
      CutBlock(d, 8, b, k);
    }
  }
}
