/**
 * The static allow-list predicates (whitelist/youtube.go). Each is a single map lookup with
 * Go's comma-ok semantics: a missing key reads as `false` and is reported as not present.
 */
module Whitelist {
  import Config

  datatype API = API(whitelist: Config.Whitelists)

  /** The `effective` half of `effective, present := m[k]`: the zero value when absent. */
  function Effective(m: map<string, bool>, k: string): (effective: bool)
    ensures k !in m ==> !effective
    ensures k in m ==> effective == m[k]
  {
    if k in m then m[k] else false
  }

  /** A channel id is allowed exactly when it is listed and mapped to true. */
  function ValidateChannelID(api: API, channelId: string): (ok: bool)
    ensures ok <==> channelId in api.whitelist.channelIds && api.whitelist.channelIds[channelId]
  {
    var effective, present := Effective(api.whitelist.channelIds, channelId), channelId in api.whitelist.channelIds;
    present && effective
  }

  /**
   * A playlist id is allowed exactly when it is listed and mapped to true. The string is
   * looked up whole: a comma-separated list is a single key.
   */
  function ValidatePlaylistID(api: API, playlistId: string): (ok: bool)
    ensures ok <==> playlistId in api.whitelist.playlistIds && api.whitelist.playlistIds[playlistId]
  {
    var effective, present := Effective(api.whitelist.playlistIds, playlistId), playlistId in api.whitelist.playlistIds;
    present && effective
  }

  /** Absence and an explicit `false` both deny, for channels and for playlists alike. */
  lemma AbsentOrFalseDenies(api: API, id: string)
    requires id !in api.whitelist.channelIds || !api.whitelist.channelIds[id]
    requires id !in api.whitelist.playlistIds || !api.whitelist.playlistIds[id]
    ensures !ValidateChannelID(api, id) && !ValidatePlaylistID(api, id)
  {
  }

  /** The two allow-maps are independent: each predicate reads only its own map. */
  lemma MapsAreIndependent(api: API, id: string, channels: map<string, bool>, playlists: map<string, bool>)
    ensures ValidateChannelID(API(api.whitelist.(playlistIds := playlists)), id) == ValidateChannelID(api, id)
    ensures ValidatePlaylistID(API(api.whitelist.(channelIds := channels)), id) == ValidatePlaylistID(api, id)
  {
  }

  /** Two allowed playlists do not make their comma-joined list allowed unless it is listed itself. */
  lemma NoCommaSplitting(api: API, a: string, b: string)
    requires ValidatePlaylistID(api, a) && ValidatePlaylistID(api, b)
    requires a + "," + b !in api.whitelist.playlistIds
    ensures !ValidatePlaylistID(api, a + "," + b)
  {
  }

  /**
   * Rejects a parameter only when it is absent yet effective, which a comma-ok lookup never
   * reports; so every parameter list passes. The parameter table, which the whitelist
   * record does not declare, is passed in explicitly.
   */
  method ValidateParameters(api: API, apiParameters: map<string, bool>, params: seq<string>) returns (ok: bool)
    ensures ok
  {
    for i := 0 to |params| {
      var effective, present := Effective(apiParameters, params[i]), params[i] in apiParameters;
      if !present && effective {
        return false;
      }
    }
    return true;
  }
}
