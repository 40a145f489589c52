/**
 * Concrete consequences of the webhook model: the boundary cases and the
 * end-to-end deliveries the dispatcher is meant to produce.
 */
module Scenarios {
  import opened Wrappers
  import opened Bytes
  import opened Extract
  import opened Webhook

  /** An exclusion entry "Sonarr" excludes "sonarr" and "SONARR", but not "radarr". */
  lemma ExcludedIgnoresCase()
    ensures Excluded([FromString("Sonarr")], FromString("sonarr"))
    ensures Excluded([FromString("Sonarr")], FromString("SONARR"))
    ensures !Excluded([FromString("Sonarr")], FromString("radarr"))
  {
    var entry := FromString("Sonarr");
    assert Lower(entry) == Lower(FromString("sonarr"));
    assert Lower(entry) == Lower(FromString("SONARR"));
    assert Lower(entry)[0] != Lower(FromString("radarr"))[0];
  }

  /** 200 and 204 are accepted; 199, 205, 301, 404 and 500 are not, and return no reply. */
  lemma StatusBoundaries(body: Bytes)
    ensures SendOutcome(Replied(200, body)) == Ok(body)
    ensures SendOutcome(Replied(204, body)) == Ok(body)
    ensures forall code :: code in {199, 205, 301, 404, 500} ==>
      SendOutcome(Replied(code, body)) == Err(InvalidStatus(code, body))
  {
  }

  /** A 120-byte name gives an 80-byte nickname; a 79-byte name is kept as it is. */
  lemma NicknameLengths(i: nat)
    ensures |Nickname(seq(120, _ => 'a' as int as byte), i)| == 80
    ensures Nickname(seq(79, _ => 'a' as int as byte), i) == seq(79, _ => 'a' as int as byte)
  {
  }

  /**
   * One hook with an empty filter and no exclusions, and a "waiting" event
   * from sonarr: exactly one delivery is started, and a 200 reply leaves the
   * hook at one post and no failure.
   */
  method DeliverToOneHook() returns (payload: Option<WebhookPayload>, fired: nat, posts: nat, fails: nat)
    ensures payload.Some? && payload.value.Event == WAITING && payload.value.App == FromString("sonarr")
    ensures fired == 1 && posts == 1 && fails == 0
  {
    var hook := new WebhookConfig([], FromString("http://localhost/hook"), [], [], 0, false, false, [], []);
    var u := new Unpackerr([hook], 10);
    u.ValidateWebhook();
    assert u.Webhook[0] == hook;
    var event := Extract(FromString("/x"), FromString("sonarr"), map[], 0, WAITING, None);
    var hooks;
    payload, hooks := u.SendWebhooks(event, Metadata([], [], [], [], [], [], 0));
    assert Fires(hook, WAITING, FromString("sonarr"));
    assert hooks == [hook];
    fired := |hooks|;
    var outcome := u.SendWebhookWithLog(hook, true, Replied(200, []));
    posts, fails := hook.Counts();
  }

  /** The same hook excluding "sonarr" gets no delivery for that event. */
  method ExcludedHookGetsNothing() returns (fired: nat)
    ensures fired == 0
  {
    var hook := new WebhookConfig([], FromString("http://localhost/hook"), [], [], 0, false, false, [], [FromString("sonarr")]);
    var u := new Unpackerr([hook], 10);
    u.ValidateWebhook();
    assert u.Webhook[0] == hook;
    var event := Extract(FromString("/x"), FromString("sonarr"), map[], 0, WAITING, None);
    var payload, hooks := u.SendWebhooks(event, Metadata([], [], [], [], [], [], 0));
    assert Excluded(hook.Exclude, FromString("sonarr"));
    fired := |hooks|;
  }

  /** An "imported" event from the folder watcher reaches no hook, even one that matches everything. */
  method FolderImportIsSkipped() returns (payload: Option<WebhookPayload>, fired: nat)
    ensures payload.None? && fired == 0
  {
    var hook := new WebhookConfig([], FromString("http://localhost/hook"), [], [], 0, false, false, [], []);
    var u := new Unpackerr([hook], 10);
    u.ValidateWebhook();
    var event := Extract(FromString("/x"), FolderString, map[], 0, IMPORTED, None);
    var hooks;
    payload, hooks := u.SendWebhooks(event, Metadata([], [], [], [], [], [], 0));
    fired := |hooks|;
  }
}
