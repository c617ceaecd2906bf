/**
 * The agent registry `agent-responses/.active-pids.json`: a JSON object from agent id to the
 * agent's record.
 */
module RegistryManager {
  import opened Common
  import opened JsonValues
  import opened Paths
  import opened Files

  /**
   * `readRegistry`: the parsed registry, or `{}` when the file is missing, does not parse, or
   * parses to a falsy value.
   */
  function ReadRegistry(file: Option<Doc>): (r: Json)
    ensures Truthy(r)
    ensures r == JObj([]) || (file.Some? && file.value == Parsed(r))
    ensures file.None? || file == Some(Garbled) ==> r == JObj([])
    ensures file.Some? && file.value.Parsed? && !Truthy(file.value.value) ==> r == JObj([])
  {
    match file
    case None => JObj([])
    case Some(Garbled) => JObj([])
    case Some(Parsed(v)) => if Truthy(v) then v else JObj([])
  }

  /**
   * The registry as the interceptor and the runners load it: the parsed file, or `{}` when
   * it is missing or does not parse (unlike `readRegistry`, a falsy value is kept).
   */
  function LoadRegistry(file: Option<Doc>): (r: Json)
    ensures file.None? || file == Some(Garbled) ==> r == JObj([])
    ensures file.Some? && file.value.Parsed? ==> r == file.value.value
  {
    match file
    case None => JObj([])
    case Some(Garbled) => JObj([])
    case Some(Parsed(v)) => v
  }

  /** A registry that was written is read back as written. */
  lemma ReadWrittenRegistry(registry: Json)
    requires Truthy(registry)
    ensures ReadRegistry(Some(Parsed(registry))) == registry
  {
  }

  /** The record kept for one agent. */
  datatype AgentEntry = AgentEntry(
    pid: Option<int>,
    depth: int,
    parentId: Option<string>,
    agentType: string,
    allowedAgents: Option<seq<Json>>,
    allowedMcpServers: Option<seq<Json>>,
    missingMcpServers: seq<Json>)

  /** `Array.isArray(x) ? [...x] : null`. */
  function ArrayOrNull(x: Json): Option<seq<Json>>
  {
    if x.JArr? then Some(x.items) else None
  }

  /**
   * `createAgentRegistryEntry`: a record with no pid yet, the caller's depth, parent and type,
   * and copies of the allow-lists, so that an empty list and no list stay apart.
   */
  function CreateAgentRegistryEntry(
    depth: int, parentAgentId: Option<string>, subagentType: string,
    allowedAgents: Json, allowedMcpServers: Json, missingMcpServers: seq<Json>): (e: AgentEntry)
    ensures e.pid.None?
    ensures e.depth == depth && e.parentId == parentAgentId && e.agentType == subagentType
    ensures e.allowedAgents.Some? <==> allowedAgents.JArr?
    ensures allowedAgents.JArr? ==> e.allowedAgents.value == allowedAgents.items
    ensures e.allowedMcpServers.Some? <==> allowedMcpServers.JArr?
    ensures allowedMcpServers.JArr? ==> e.allowedMcpServers.value == allowedMcpServers.items
    ensures e.missingMcpServers == missingMcpServers
  {
    AgentEntry(
      None, depth, parentAgentId, subagentType,
      ArrayOrNull(allowedAgents), ArrayOrNull(allowedMcpServers),
      if |missingMcpServers| > 0 then missingMcpServers else [])
  }

  function OptionalNumber(x: Option<int>): Json
  {
    if x.Some? then JNum(x.value) else JNull
  }

  function OptionalString(x: Option<string>): Json
  {
    if x.Some? then JStr(x.value) else JNull
  }

  function OptionalArray(x: Option<seq<Json>>): Json
  {
    if x.Some? then JArr(x.value) else JNull
  }

  /** The JSON object the record is stored as, members in the source's order. */
  function EntryJson(e: AgentEntry): Json
  {
    JObj([
      Member("pid", OptionalNumber(e.pid)),
      Member("depth", JNum(e.depth)),
      Member("parentId", OptionalString(e.parentId)),
      Member("agentType", JStr(e.agentType)),
      Member("allowedAgents", OptionalArray(e.allowedAgents)),
      Member("allowedMcpServers", OptionalArray(e.allowedMcpServers)),
      Member("missingMcpServers", JArr(e.missingMcpServers))])
  }

  /** How a reader of the registry recovers a record from its JSON. */
  function DecodeEntry(j: Json): Option<AgentEntry>
  {
    var pid := Field(j, "pid");
    var depth := Field(j, "depth");
    var parent := Field(j, "parentId");
    var agentType := Field(j, "agentType");
    var agents := Field(j, "allowedAgents");
    var servers := Field(j, "allowedMcpServers");
    var missing := Field(j, "missingMcpServers");
    if (pid.JNull? || pid.JNum?) && depth.JNum? && (parent.JNull? || parent.JStr?) && agentType.JStr?
      && (agents.JNull? || agents.JArr?) && (servers.JNull? || servers.JArr?) && missing.JArr?
    then
      Some(AgentEntry(
        if pid.JNum? then Some(pid.n) else None, depth.n,
        if parent.JStr? then Some(parent.s) else None, agentType.s,
        ArrayOrNull(agents), ArrayOrNull(servers), missing.items))
    else None
  }

  /** Every record survives being stored and read back, allow-lists included. */
  lemma DecodeEntryJson(e: AgentEntry)
    ensures DecodeEntry(EntryJson(e)) == Some(e)
  {
    EntryScalarFields(e);
    EntryListFields(e);
  }

  /** The scalar members of a stored record hold the corresponding fields. */
  lemma EntryScalarFields(e: AgentEntry)
    ensures Field(EntryJson(e), "pid") == OptionalNumber(e.pid)
    ensures Field(EntryJson(e), "depth") == JNum(e.depth)
    ensures Field(EntryJson(e), "parentId") == OptionalString(e.parentId)
    ensures Field(EntryJson(e), "agentType") == JStr(e.agentType)
  {
    var ms := EntryJson(e).members;
    LookupAt(ms, 0, "pid");
    LookupAt(ms, 1, "depth");
    LookupAt(ms, 2, "parentId");
    LookupAt(ms, 3, "agentType");
  }

  /** The list members of a stored record hold the corresponding fields. */
  lemma EntryListFields(e: AgentEntry)
    ensures Field(EntryJson(e), "allowedAgents") == OptionalArray(e.allowedAgents)
    ensures Field(EntryJson(e), "allowedMcpServers") == OptionalArray(e.allowedMcpServers)
    ensures Field(EntryJson(e), "missingMcpServers") == JArr(e.missingMcpServers)
  {
    var ms := EntryJson(e).members;
    assert "allowedMcpServers"[0] != "missingMcpServers"[0];
    LookupAt(ms, 4, "allowedAgents");
    LookupAt(ms, 5, "allowedMcpServers");
    LookupAt(ms, 6, "missingMcpServers");
  }

  /** An empty allow-list and a missing one are stored differently. */
  lemma EmptyAndNullAllowListsDiffer(depth: int, parent: Option<string>, t: string, missing: seq<Json>)
    ensures Field(EntryJson(CreateAgentRegistryEntry(depth, parent, t, JArr([]), JNull, missing)), "allowedAgents") == JArr([])
    ensures Field(EntryJson(CreateAgentRegistryEntry(depth, parent, t, JNull, JNull, missing)), "allowedAgents") == JNull
    ensures Field(EntryJson(CreateAgentRegistryEntry(depth, parent, t, JNull, JArr([]), missing)), "allowedMcpServers") == JArr([])
  {
    EntryListFields(CreateAgentRegistryEntry(depth, parent, t, JArr([]), JNull, missing));
    EntryListFields(CreateAgentRegistryEntry(depth, parent, t, JNull, JNull, missing));
    EntryListFields(CreateAgentRegistryEntry(depth, parent, t, JNull, JArr([]), missing));
  }

  /**
   * The registry `updateAgentPid` writes, or `None` when it writes nothing: only an existing,
   * truthy entry is updated, and in it only `pid` changes.
   */
  function AfterPidUpdate(registry: Json, agentId: string, pid: int): (r: Option<Json>)
    ensures r.Some? <==> Truthy(Field(registry, agentId))
    ensures r.Some? ==> forall k :: k != agentId ==> Get(r.value, k) == Get(registry, k)
    ensures r.Some? && registry.JObj? && Field(registry, agentId).JObj? ==>
      Get(Field(r.value, agentId), "pid") == Some(JNum(pid))
      && forall f :: f != "pid" ==> Get(Field(r.value, agentId), f) == Get(Field(registry, agentId), f)
    ensures r.Some? && !(registry.JObj? && Field(registry, agentId).JObj?) ==> r.value == registry
  {
    var entry := Get(registry, agentId);
    if entry.Some? && Truthy(entry.value) then
      assert registry.JObj? && !entry.value.JObj? ==> Set(registry, agentId, entry.value) == registry by {
        if registry.JObj? && !entry.value.JObj? {
          UpsertSame(registry.members, agentId, entry.value);
        }
      }
      Some(Set(registry, agentId, Set(entry.value, "pid", JNum(pid))))
    else
      None
  }

  /** `updateAgentPid`: read the registry, set the pid of an existing entry, write it back. */
  method UpdateAgentPid(fs: FileSystem, registryPath: Path, agentId: string, pid: int)
    modifies fs
    ensures fs.texts == old(fs.texts) && fs.programs == old(fs.programs)
    ensures var r := AfterPidUpdate(ReadRegistry(old(fs.ReadDoc(registryPath))), agentId, pid);
      fs.docs == if r.Some? then old(fs.docs)[registryPath := Parsed(r.value)] else old(fs.docs)
  {
    var registry := ReadRegistry(fs.ReadDoc(registryPath));
    var entry := Get(registry, agentId);
    if entry.Some? && Truthy(entry.value) {
      registry := Set(registry, agentId, Set(entry.value, "pid", JNum(pid)));
      WriteRegistry(fs, registryPath, registry);
    }
  }

  /** `writeRegistry`. */
  method WriteRegistry(fs: FileSystem, registryPath: Path, registry: Json)
    modifies fs
    ensures fs.docs == old(fs.docs)[registryPath := Parsed(registry)]
    ensures fs.texts == old(fs.texts) && fs.programs == old(fs.programs)
  {
    fs.WriteDoc(registryPath, registry);
  }
}
