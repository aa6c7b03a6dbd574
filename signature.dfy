/**
 * The MAC inputs and key choice on both trust boundaries: outbound requests to
 * the gateway are signed with KEY1 over a fixed `|`-joined field list; inbound
 * callbacks are authenticated with KEY2 over the raw `data` string.
 */
module Signature {
  import opened JsValues
  import opened Text
  import opened Runtime

  const Delimiter: char := '|'

  /** The create-order request sent to the gateway (`paymentPayload`). */
  datatype CreateRequest = CreateRequest(
    appId: int,
    appTransId: string,
    appUser: string,
    appTime: int,
    item: string,
    embedData: string,
    amount: real,
    description: string,
    bankCode: string,
    callbackUrl: string,
    mac: string)

  /** The signed fields, in wire order. */
  function MacFields(env: Env, r: CreateRequest): seq<string> {
    [env.numberText(r.appId as real), r.appTransId, r.appUser, env.numberText(r.amount),
     env.numberText(r.appTime as real), r.embedData, r.item]
  }

  /** The string KEY1 signs: `app_id|app_trans_id|app_user|amount|app_time|embed_data|item`. */
  function MacInput(env: Env, r: CreateRequest): (s: string)
    ensures s == env.numberText(r.appId as real) + "|" + r.appTransId + "|" + r.appUser + "|"
               + env.numberText(r.amount) + "|" + env.numberText(r.appTime as real) + "|"
               + r.embedData + "|" + r.item
  {
    MacFieldsJoined(MacFields(env, r));
    Join(MacFields(env, r), Delimiter)
  }

  lemma MacFieldsJoined(f: seq<string>)
    requires |f| == 7
    ensures Join(f, Delimiter) == f[0] + "|" + f[1] + "|" + f[2] + "|" + f[3] + "|" + f[4] + "|" + f[5] + "|" + f[6]
  {
    assert Join(f[6..], Delimiter) == f[6];
    assert Join(f[5..], Delimiter) == f[5] + "|" + f[6] by { assert f[5..][1..] == f[6..]; }
    assert Join(f[4..], Delimiter) == f[4] + "|" + Join(f[5..], Delimiter) by { assert f[4..][1..] == f[5..]; }
    assert Join(f[3..], Delimiter) == f[3] + "|" + Join(f[4..], Delimiter) by { assert f[3..][1..] == f[4..]; }
    assert Join(f[2..], Delimiter) == f[2] + "|" + Join(f[3..], Delimiter) by { assert f[2..][1..] == f[3..]; }
    assert Join(f[1..], Delimiter) == f[1] + "|" + Join(f[2..], Delimiter) by { assert f[1..][1..] == f[2..]; }
    assert Join(f, Delimiter) == f[0] + "|" + Join(f[1..], Delimiter);
  }

  /** The MAC attached to an outbound request: KEY1 over the seven fields, whatever `mac` holds already. */
  function OutboundMac(env: Env, r: CreateRequest): (mac: string)
    ensures mac == env.hmac(env.numberText(r.appId as real) + "|" + r.appTransId + "|" + r.appUser + "|"
                            + env.numberText(r.amount) + "|" + env.numberText(r.appTime as real) + "|"
                            + r.embedData + "|" + r.item, env.key1)
  {
    env.hmac(MacInput(env, r), env.key1)
  }

  /** `localMac !== mac` is false: the callback's MAC is KEY2's HMAC of the raw data. */
  predicate CallbackMacMatches(env: Env, data: string, mac: Option<string>)
    ensures mac == Some(env.hmac(data, env.key2)) ==> CallbackMacMatches(env, data, mac)
    ensures mac == Some(env.hmac(data, env.key1)) && env.hmac(data, env.key1) != env.hmac(data, env.key2) ==>
              !CallbackMacMatches(env, data, mac)
    ensures mac.None? ==> !CallbackMacMatches(env, data, mac)
  {
    mac == Some(env.hmac(data, env.key2))
  }

  /** No signed field contains the delimiter. */
  predicate DelimiterFree(env: Env, r: CreateRequest) {
    forall i :: 0 <= i < |MacFields(env, r)| ==> Delimiter !in MacFields(env, r)[i]
  }

  /** When no field contains `|`, the signed string splits back into exactly the seven fields, in order. */
  lemma MacInputSplitsIntoFields(env: Env, r: CreateRequest)
    requires DelimiterFree(env, r)
    ensures Split(MacInput(env, r), Delimiter) == MacFields(env, r)
  {
    SplitOfJoin(MacFields(env, r), Delimiter);
  }

  /**
   * Order sensitivity: two requests whose delimiter-free fields give the same
   * signed string agree on every signed field.
   */
  lemma SameMacInputSameFields(env: Env, r1: CreateRequest, r2: CreateRequest)
    requires DelimiterFree(env, r1) && DelimiterFree(env, r2)
    requires MacInput(env, r1) == MacInput(env, r2)
    ensures MacFields(env, r1) == MacFields(env, r2)
  {
    MacInputSplitsIntoFields(env, r1);
    MacInputSplitsIntoFields(env, r2);
  }
}
