/**
 * Fans one message out to the push channels of a device: a Bark push for
 * every configuration with a Bark URL and token, a FeiShu bot message for
 * every configuration with a secret and webhooks. Sends are recorded as
 * events; the channel clients themselves are not modelled.
 */
module NotificationDispatcher {
  import opened Wrappers
  import opened Text
  import opened Domain

  const PushTitle := "苹果商店监控"
  const PushGroup := "Apple Monitor"

  predicate BarkEnabled(p: PushConfig) {
    !IsEmpty(p.barkPushUrl) && !IsEmpty(p.barkPushToken)
  }

  predicate FeiShuEnabled(p: PushConfig) {
    !IsEmpty(p.feishuBotSecret) && !IsEmpty(p.feishuBotWebhooks)
  }

  /** The configured sound, or Bark's glass sound when none is configured. */
  function BarkSound(p: PushConfig): Sound {
    if IsEmpty(p.barkPushSound) then GlassSound else NamedSound(p.barkPushSound.value)
  }

  function BarkMessage(content: string, p: PushConfig): Event
    requires BarkEnabled(p)
  {
    BarkPush(p.barkPushUrl.value, p.barkPushToken.value,
             PushDetails(PushTitle, content, PushTitle, PushGroup, BarkSound(p)))
  }

  function FeiShuMessage(content: string, p: PushConfig): Event
    requires FeiShuEnabled(p)
  {
    FeiShuPush(p.feishuBotSecret.value, p.feishuBotWebhooks.value, content)
  }

  /** The sends one configuration triggers, Bark first. */
  function ConfigSends(content: string, p: PushConfig): seq<Event> {
    (if BarkEnabled(p) then [BarkMessage(content, p)] else [])
    + (if FeiShuEnabled(p) then [FeiShuMessage(content, p)] else [])
  }

  /**
   * A configuration triggers a Bark push exactly when its URL and token are
   * non-empty and a FeiShu message exactly when its secret and webhooks are
   * non-empty, independently of each other, Bark first.
   */
  lemma ConfigSendsShape(content: string, p: PushConfig)
    ensures var r := ConfigSends(content, p);
            && |r| == (if BarkEnabled(p) then 1 else 0) + (if FeiShuEnabled(p) then 1 else 0)
            && (BarkEnabled(p) ==> r[0] == BarkMessage(content, p))
            && (FeiShuEnabled(p) ==> r[|r| - 1] == FeiShuMessage(content, p))
            && forall e :: e in r ==> || (BarkEnabled(p) && e == BarkMessage(content, p))
                                      || (FeiShuEnabled(p) && e == FeiShuMessage(content, p))
  {
  }

  /** Every send of `pushAll`, configuration by configuration. */
  function PushSends(content: string, configs: seq<PushConfig>): seq<Event>
    decreases |configs|
  {
    if configs == [] then [] else ConfigSends(content, configs[0]) + PushSends(content, configs[1..])
  }

  /** Every send is a Bark push or a FeiShu message, and carries the message unchanged. */
  lemma {:induction false} PushSendsCarryContent(content: string, configs: seq<PushConfig>)
    ensures forall e :: e in PushSends(content, configs) ==>
                          || (e.BarkPush? && e.details.body == content)
                          || (e.FeiShuPush? && e.text == content)
    decreases |configs|
  {
    if configs != [] {
      ConfigSendsShape(content, configs[0]);
      PushSendsCarryContent(content, configs[1..]);
    }
  }

  /** A send happens exactly when some configuration triggers it. */
  lemma {:induction false} PushSendsIff(content: string, configs: seq<PushConfig>, e: Event)
    ensures e in PushSends(content, configs)
            <==> exists i :: 0 <= i < |configs| && e in ConfigSends(content, configs[i])
    decreases |configs|
  {
    if configs != [] {
      PushSendsIff(content, configs[1..], e);
      if e in PushSends(content, configs[1..]) {
        var i :| 0 <= i < |configs[1..]| && e in ConfigSends(content, configs[1..][i]);
        assert e in ConfigSends(content, configs[i + 1]);
      }
      if exists i :: 0 <= i < |configs| && e in ConfigSends(content, configs[i]) {
        var i :| 0 <= i < |configs| && e in ConfigSends(content, configs[i]);
        if i > 0 {
          assert configs[1..][i - 1] == configs[i];
        }
      }
    }
  }

  /** How many sends a list of configurations triggers. */
  function SendCount(configs: seq<PushConfig>): nat
    decreases |configs|
  {
    if configs == [] then 0
    else (if BarkEnabled(configs[0]) then 1 else 0) + (if FeiShuEnabled(configs[0]) then 1 else 0)
         + SendCount(configs[1..])
  }

  /** One send per enabled channel per configuration, duplicates included. */
  lemma {:induction false} PushSendsLength(content: string, configs: seq<PushConfig>)
    ensures |PushSends(content, configs)| == SendCount(configs)
    decreases |configs|
  {
    if configs != [] {
      ConfigSendsShape(content, configs[0]);
      PushSendsLength(content, configs[1..]);
    }
  }

  lemma ConcatAssoc(a: seq<Event>, b: seq<Event>, c: seq<Event>)
    ensures a + (b + c) == (a + b) + c
  {
  }

  /**
   * `pushAll`: for each configuration in order, a Bark push when its URL
   * and token are non-empty, then a FeiShu message when its secret and
   * webhooks are non-empty.
   */
  method PushAll(content: string, pushConfigs: seq<PushConfig>) returns (sends: seq<Event>)
    ensures sends == PushSends(content, pushConfigs)
  {
    ghost var goal := PushSends(content, pushConfigs);
    sends := [];
    for i := 0 to |pushConfigs|
      invariant goal == sends + PushSends(content, pushConfigs[i..])
    {
      var push := pushConfigs[i];
      var batch := [];
      if !IsEmpty(push.barkPushUrl) && !IsEmpty(push.barkPushToken) {
        var sound := if IsEmpty(push.barkPushSound) then GlassSound else NamedSound(push.barkPushSound.value);
        batch := batch + [BarkPush(push.barkPushUrl.value, push.barkPushToken.value,
                                   PushDetails(PushTitle, content, PushTitle, PushGroup, sound))];
      }
      if !IsEmpty(push.feishuBotSecret) && !IsEmpty(push.feishuBotWebhooks) {
        batch := batch + [FeiShuPush(push.feishuBotSecret.value, push.feishuBotWebhooks.value, content)];
      }
      assert batch == ConfigSends(content, push);
      assert pushConfigs[i..][1..] == pushConfigs[i + 1..];
      ConcatAssoc(sends, batch, PushSends(content, pushConfigs[i + 1..]));
      sends := sends + batch;
    }
    assert pushConfigs[|pushConfigs|..] == [];
  }
}
