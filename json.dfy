/** JSON values as the handlers build them. nlohmann::json's parser and its
    `dump()` are external: the model never looks inside a value it did not
    build, and the text of a value is given by an external `dump` function
    wherever it is needed. */
module Json {

  datatype Json =
    | Null
    | Str(text: string)
    | Obj(members: seq<(string, Json)>)
    /** A value assembled elsewhere (a user, a world, a session), known by identity. */
    | Opaque(id: nat)
    /** What a failed non-throwing `json::parse` yields. */
    | Discarded
}
