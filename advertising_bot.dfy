/** The outreach bot: it posts only in hours that suit its audience, writes the post from
    one of three templates filled with the business's details, and waits the configured
    number of hours plus up to half an hour between cycles.  The clock and the random
    choices are parameters. */
module AdvertisingBot {
  import opened Common

  datatype BotConfig = BotConfig(businessName: string, targetMessage: string, contactInfo: string,
                                 facebookEnabled: bool, emailEnabled: bool, communityEnabled: bool,
                                 frequencyHours: int)

  /** The configuration written when no configuration file exists. */
  const DefaultConfig: BotConfig :=
    BotConfig("Your Business", "Helping seniors with technology and services",
              "Contact us at: your-email@example.com", false, false, false, 24)

  /** The preferred windows, each inclusive at both ends. */
  const FriendlyTimes: seq<(int, int)> := [(9, 11), (13, 15), (18, 20)]

  /** The hours the preferred windows cover. */
  predicate InFriendlyWindow(hour: int) {
    9 <= hour <= 11 || 13 <= hour <= 15 || 18 <= hour <= 20
  }

  /** The window search alone, without the early-and-late guard. */
  function WindowsContain(windows: seq<(int, int)>, hour: int): (r: bool)
    ensures r <==> exists i :: 0 <= i < |windows| && windows[i].0 <= hour <= windows[i].1
  {
    if windows == [] then false
    else (windows[0].0 <= hour <= windows[0].1) || WindowsContain(windows[1..], hour)
  }

  lemma FriendlyWindows(hour: int)
    ensures WindowsContain(FriendlyTimes, hour) <==> InFriendlyWindow(hour)
  {
    if InFriendlyWindow(hour) {
      if 9 <= hour <= 11 { assert FriendlyTimes[0] == (9, 11); }
      else if 13 <= hour <= 15 { assert FriendlyTimes[1] == (13, 15); }
      else { assert FriendlyTimes[2] == (18, 20); }
    }
  }

  /** The guard against hours before 8 and after 21 never decides anything: no window
      reaches those hours. */
  lemma GuardRedundant(hour: int)
    ensures (hour < 8 || hour > 21) ==> !WindowsContain(FriendlyTimes, hour)
    ensures (!(hour < 8 || hour > 21) && WindowsContain(FriendlyTimes, hour)) == WindowsContain(FriendlyTimes, hour)
  {
    FriendlyWindows(hour);
  }

  /** `is_senior_friendly_time` at the given hour of the local clock: the window search
      over the configured list, which accepts exactly the friendly hours. */
  method IsSeniorFriendlyTime(hour: int) returns (r: bool)
    ensures r == WindowsContain(FriendlyTimes, hour)
    ensures r <==> InFriendlyWindow(hour)
  {
    FriendlyWindows(hour);
    if hour < 8 || hour > 21 {
      return false;
    }
    var i := 0;
    while i < |FriendlyTimes|
      invariant 0 <= i <= |FriendlyTimes|
      invariant forall j :: 0 <= j < i ==> !(FriendlyTimes[j].0 <= hour <= FriendlyTimes[j].1)
    {
      var (start, end) := FriendlyTimes[i];
      if start <= hour <= end {
        return true;
      }
      i := i + 1;
    }
    return false;
  }

  /** `sub` occurs somewhere in `s`. */
  predicate Contains(s: string, sub: string) {
    exists i :: 0 <= i <= |s| && sub <= s[i..]
  }

  /** A post laid out as an opening, the business name, a middle part, the contact
      details and a closing. */
  function Fill(lead: string, business: string, middle: string, contact: string, tail: string): string {
    lead + business + middle + contact + tail
  }

  lemma FillMentions(lead: string, business: string, middle: string, contact: string, tail: string)
    ensures Contains(Fill(lead, business, middle, contact, tail), business)
    ensures Contains(Fill(lead, business, middle, contact, tail), contact)
  {
    var s := Fill(lead, business, middle, contact, tail);
    assert business <= s[|lead|..];
    var k := |lead| + |business| + |middle|;
    assert contact <= s[k..];
  }

  /** The three post templates filled with the configuration. */
  function Templates(config: BotConfig): (r: seq<string>)
    ensures |r| == 3
  {
    var b, t, c := config.businessName, config.targetMessage, config.contactInfo;
    [ Fill("🌟 ", b, " - " + t + "\n\n" +
           "We understand the importance of clear communication and reliable service.\n",
           c, "\n\n" + "Feel free to call or email with any questions!"),
      Fill("Hello! 👋 ", b, " here.\n\n" + t + "\n\n" +
           "We believe in taking time to explain everything clearly.\n",
           c, "\n\n" + "Looking forward to helping you!"),
      Fill("Good day! ☀️\n\n", b, " specializes in " + t + "\n\n" +
           "• Clear explanations\n• Patient service\n• Fair pricing\n\n",
           c, "") ]
  }

  /** Every template names the business and gives the contact details. */
  lemma TemplatesMention(config: BotConfig, k: nat)
    requires k < 3
    ensures Contains(Templates(config)[k], config.businessName)
    ensures Contains(Templates(config)[k], config.contactInfo)
  {
    var b, t, c := config.businessName, config.targetMessage, config.contactInfo;
    if k == 0 {
      FillMentions("🌟 ", b, " - " + t + "\n\n" +
                   "We understand the importance of clear communication and reliable service.\n",
                   c, "\n\n" + "Feel free to call or email with any questions!");
    } else if k == 1 {
      FillMentions("Hello! 👋 ", b, " here.\n\n" + t + "\n\n" +
                   "We believe in taking time to explain everything clearly.\n",
                   c, "\n\n" + "Looking forward to helping you!");
    } else {
      FillMentions("Good day! ☀️\n\n", b, " specializes in " + t + "\n\n" +
                   "• Clear explanations\n• Patient service\n• Fair pricing\n\n",
                   c, "");
    }
  }

  /** `create_senior_friendly_message`: a non-empty template given by the caller is used
      as it is; otherwise the template at the random index `pick` is filled in. */
  function CreateMessage(config: BotConfig, template: Option<string>, pick: nat): (r: string)
    requires pick < 3
    ensures template.Some? && template.value != "" ==> r == template.value
    ensures !(template.Some? && template.value != "") ==> r in Templates(config)
  {
    if template.Some? && template.value != "" then template.value else Templates(config)[pick]
  }

  /** A generated post always names the business and gives the contact details. */
  lemma GeneratedMentions(config: BotConfig, pick: nat)
    requires pick < 3
    ensures Contains(CreateMessage(config, None, pick), config.businessName)
    ensures Contains(CreateMessage(config, None, pick), config.contactInfo)
  {
    TemplatesMention(config, pick);
  }

  datatype Platform = Facebook | Email | CommunitySites

  /** The platforms a message goes to, in posting order. */
  function EnabledPlatforms(config: BotConfig): (r: seq<Platform>)
    ensures Facebook in r <==> config.facebookEnabled
    ensures Email in r <==> config.emailEnabled
    ensures CommunitySites in r <==> config.communityEnabled
  {
    (if config.facebookEnabled then [Facebook] else []) +
    (if config.emailEnabled then [Email] else []) +
    (if config.communityEnabled then [CommunitySites] else [])
  }

  /** One advertising cycle at the given hour: nothing outside the friendly hours,
      otherwise a generated message for every enabled platform. */
  method RunAdvertisingCycle(config: BotConfig, hour: int, pick: nat)
    returns (message: Option<string>, platforms: seq<Platform>)
    requires pick < 3
    ensures !InFriendlyWindow(hour) ==> message == None && platforms == []
    ensures InFriendlyWindow(hour) ==>
              message == Some(CreateMessage(config, None, pick)) && platforms == EnabledPlatforms(config)
  {
    var friendly := IsSeniorFriendlyTime(hour);
    if !friendly {
      return None, [];
    }
    message := Some(CreateMessage(config, None, pick));
    platforms := EnabledPlatforms(config);
  }

  const RetryWaitSeconds: int := 300

  /** The seconds slept after a cycle: the configured hours plus `minutes`, drawn from
      0 to 30.  After a cycle that raised an error, or when that total is negative (so
      that `time.sleep` raises `ValueError`), the handler sleeps five minutes instead. */
  function NextWait(config: BotConfig, cycleOk: bool, minutes: nat): (r: nat)
    requires minutes <= 30
    ensures cycleOk && config.frequencyHours >= 0 ==>
              config.frequencyHours * 3600 <= r <= config.frequencyHours * 3600 + 1800 &&
              (r - config.frequencyHours * 3600) % 60 == 0 &&
              r == config.frequencyHours * 3600 + minutes * 60
    ensures !cycleOk || config.frequencyHours < 0 ==> r == RetryWaitSeconds
  {
    var total := config.frequencyHours * 3600 + minutes * 60;
    if cycleOk && total >= 0 then total else RetryWaitSeconds
  }

  /** With the default configuration a cycle ends in a wait of one day and at most half
      an hour. */
  lemma DefaultWait(minutes: nat)
    requires minutes <= 30
    ensures 86400 <= NextWait(DefaultConfig, true, minutes) <= 88200
  {
  }
}
