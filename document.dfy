/** The configuration document held by the editor: a record whose `mcpServers`
    member maps a server name to the command that launches it. Other top-level
    members of a pasted document are carried along untouched. */
module Document {

  datatype Option<T> = None | Some(value: T)

  type ServerId = string

  /** One launch descriptor: a command and its ordered argument list. */
  datatype ServerEntry = ServerEntry(command: string, args: seq<string>)

  /** The parsed configuration. `otherFields` stands for every top-level member
      other than `mcpServers`, each kept as its JSON text; a key "mcpServers"
      there has no JSON counterpart and is never produced by the editor.
      Maps carry no key order, which `JSON.stringify` would show. */
  datatype Doc = Doc(mcpServers: map<ServerId, ServerEntry>, otherFields: map<string, string>)

  /** The document the editor starts with: `{mcpServers: {}}`. */
  const EmptyDoc: Doc := Doc(map[], map[])

  /** The entry written for a server that is installed through the JSON file. */
  function McpEntry(id: ServerId): (e: ServerEntry)
  {
    ServerEntry("mcp", [id])
  }

  /** `{...servers, [id]: {command: "mcp", args: [id]}}`: the spread keeps every
      entry and the later key wins. */
  function WithServer(servers: map<ServerId, ServerEntry>, id: ServerId): (r: map<ServerId, ServerEntry>)
    ensures r.Keys == servers.Keys + {id}
    ensures id in r && r[id] == ServerEntry("mcp", [id])
    ensures forall k | k in servers && k != id :: r[k] == servers[k]
  {
    servers + map[id := McpEntry(id)]
  }

  /** `const { [id]: _, ...rest } = servers`: every entry except the one named `id`. */
  function WithoutServer(servers: map<ServerId, ServerEntry>, id: ServerId): (r: map<ServerId, ServerEntry>)
    ensures r.Keys == servers.Keys - {id}
    ensures forall k | k in r :: r[k] == servers[k]
    ensures |r| == if id in servers then |servers| - 1 else |servers|
  {
    var rest := map k | k in servers && k != id :: servers[k];
    assert rest.Keys == servers.Keys - {id};
    rest
  }

  /** Deleting a name that is not there leaves the servers as they were. */
  lemma WithoutAbsent(servers: map<ServerId, ServerEntry>, id: ServerId)
    requires id !in servers
    ensures WithoutServer(servers, id) == servers
  {
  }

  /** Adding then deleting the same name is the same as deleting it: whatever
      entry the add overwrote is gone too. */
  lemma RemoveAfterAdd(servers: map<ServerId, ServerEntry>, id: ServerId)
    ensures WithoutServer(WithServer(servers, id), id) == WithoutServer(servers, id)
  {
  }

  /** The round trip: for a name that was not a key, add followed by remove
      restores the servers exactly. */
  lemma AddThenRemoveRestores(servers: map<ServerId, ServerEntry>, id: ServerId)
    requires id !in servers
    ensures WithoutServer(WithServer(servers, id), id) == servers
  {
  }

  /** `Object.keys(doc)`: the top-level member names. `mcpServers` is always one. */
  function TopLevelKeys(d: Doc): (keys: set<string>)
    ensures "mcpServers" in keys && |keys| > 0
    ensures d.otherFields.Keys <= keys
  {
    d.otherFields.Keys + {"mcpServers"}
  }
}
