/** The cross-origin policy of the application: the `ALLOWED_ORIGINS` setting is a
    comma-separated whitelist, and the origin callback admits a request without an
    origin, any origin when the list holds `*`, and an origin listed verbatim. */
module AppCors {
  import opened Wrappers
  import Text

  const Refused := "No permitido por CORS"

  /** `ALLOWED_ORIGINS ? ALLOWED_ORIGINS.split(',') : []`. */
  function Whitelist(setting: Option<string>): (list: seq<string>)
    ensures !Filled(setting) ==> list == []
    ensures Filled(setting) ==> list == Text.Split(setting.value, ',')
  {
    if Filled(setting) then Text.Split(setting.value, ',') else []
  }

  /** The origin callback: `Ok(true)` is `callback(null, true)`, an error is the
      refusal passed to the callback. */
  function OriginAllowed(whitelist: seq<string>, origin: Option<string>): (r: Result<bool, string>)
    ensures r.Ok? <==> !Filled(origin) || "*" in whitelist || origin.value in whitelist
    ensures r.Ok? ==> r.value
    ensures r.Err? ==> r.error == Refused
  {
    if !Filled(origin) || "*" in whitelist || origin.value in whitelist then Ok(true) else Err(Refused)
  }

  /** With the setting unset, only requests without an origin pass. */
  lemma UnsetAdmitsNoOrigin(origin: string)
    requires origin != ""
    ensures OriginAllowed(Whitelist(None), Some(origin)) == Err(Refused)
  {
  }

  /** A setting written as the comma-joined list of comma-free origins admits exactly
      those origins (or every origin when one of them is `*`). */
  lemma {:induction false} JoinedSettingAdmits(origins: seq<string>, origin: string)
    requires |origins| >= 1 && Text.Join(origins, ',') != "" && origin != ""
    requires forall i :: 0 <= i < |origins| ==> ',' !in origins[i]
    ensures OriginAllowed(Whitelist(Some(Text.Join(origins, ','))), Some(origin)).Ok?
        <==> "*" in origins || origin in origins
  {
    Text.SplitJoin(origins, ',');
  }

  /** An origin containing a comma can never be listed, so it passes only through `*`. */
  lemma CommaOriginNeedsWildcard(setting: Option<string>, origin: string)
    requires ',' in origin
    ensures OriginAllowed(Whitelist(setting), Some(origin)).Ok? <==> "*" in Whitelist(setting)
  {
  }
}
