/** Everything the API layer consults but does not implement: the JSON
    library, URL decoding, the typed conversion of path captures, the
    account manager, the world manager and the reports of /status and
    /tokenlist. Each is an uninterpreted function supplied from outside. */
module Collaborators {
  import opened Wrappers
  import opened Json

  /** A session held by the account manager, known by identity. */
  type SessionId = nat

  /** The C++ types a path capture is converted to (the handler's parameters);
      World::Pos is an i32. */
  datatype CaptureType = UserIdArg | PlayerIdArg | I32Arg | StringArg

  /** The two reports assembled from clocks and manager state. */
  datatype Report = StatusReport | TokenListReport

  datatype Env = Env(
    /** `json.dump()`. */
    dump: Json -> string,
    /** `json::parse(data, data + len, nullptr, false)`: never throws. */
    parseBody: string -> Json,
    /** `urldecode` of one path segment; a failure carries `e.what()`. */
    urlDecode: string -> Result<string, string>,
    /** `am.getSession(token)`. */
    lookupSession: string -> Option<SessionId>,
    /** Whether a capture converts to the handler's parameter type. */
    converts: (CaptureType, string) -> bool,
    /** The converted value of a User::Id capture. */
    userIdOf: string -> nat,
    /** The converted value of an i32 capture. */
    intOf: string -> int,
    /** The message of an exception escaping a handler closure before it
        writes anything, if one does on this call. */
    raises: Option<string>,
    /** `wm.verifyWorldName(name)`. */
    validWorldName: string -> bool,
    /** `wm.isLoaded(name)`. */
    worldLoaded: string -> bool,
    /** The JSON of `wm.getOrLoadWorld(name)`. */
    worldJson: string -> Json,
    /** The JSON of `s.getUser()`. */
    userJson: SessionId -> Json,
    /** The JSON of the session itself. */
    sessionJson: SessionId -> Json,
    /** The JSON the /status and /tokenlist handlers assemble. */
    reportJson: Report -> Json)
}
