/** The settings panel: a password lock in front of a generator of promotional
    messages chosen by audience and tone. */
module SettingsModal {
  import opened Common

  const Password: string := "settings"
  const MsgIncorrect: string := "Incorrect password"

  /** JavaScript's `toLowerCase` on one character, for the letters A-Z.  No other character
      lowers to a letter of the password, so this decides the comparison the same way. */
  function LowerChar(c: char): (r: char)
    ensures 'A' <= c <= 'Z' ==> r as int == c as int + 32
    ensures !('A' <= c <= 'Z') ==> r == c
  {
    if 'A' <= c <= 'Z' then (c as int + 32) as char else c
  }

  function Lower(s: string): (r: string)
    ensures |r| == |s|
    ensures forall i :: 0 <= i < |s| ==> r[i] == LowerChar(s[i])
  {
    if s == [] then [] else [LowerChar(s[0])] + Lower(s[1..])
  }

  /** The password check: the lowered entry equals `settings`. */
  predicate Accepts(entry: string) {
    Lower(entry) == Password
  }

  /** A character lowers to the lower-case letter `l` exactly when it is `l` or its
      upper-case form. */
  lemma LowerCharIff(c: char, l: char)
    requires 'a' <= l <= 'z'
    ensures LowerChar(c) == l <==> c == l || c as int == l as int - 32
  {
  }

  /** The check is case-insensitive and nothing more: an entry is accepted exactly when it
      has eight characters, each the password's letter in lower or upper case. */
  lemma {:induction false} AcceptsIff(entry: string)
    ensures Accepts(entry) <==>
              |entry| == 8 && forall i :: 0 <= i < 8 ==>
                entry[i] == Password[i] || entry[i] as int == Password[i] as int - 32
  {
    assert |Password| == 8;
    assert forall i :: 0 <= i < 8 ==> 'a' <= Password[i] <= 'z';
    if |entry| == 8 {
      forall i | 0 <= i < 8
        ensures Lower(entry)[i] == Password[i] <==>
                  entry[i] == Password[i] || entry[i] as int == Password[i] as int - 32
      {
        LowerCharIff(entry[i], Password[i]);
      }
      assert Lower(entry) == Password <==> forall i :: 0 <= i < 8 ==> Lower(entry)[i] == Password[i];
    }
  }

  /** Upper-case and capitalised entries unlock as well. */
  lemma UpperCaseAccepted()
    ensures Accepts("SETTINGS") && Accepts("Settings") && !Accepts("setting")
  {
    AcceptsIff("SETTINGS");
    AcceptsIff("Settings");
  }

  datatype Target = Seniors | Everyone | Families

  datatype Tone = Friendly | Professional | Enthusiastic

  const SeniorsFriendly0: string := "🌟 Ready to brighten someone's day? Join thousands of wonderful people making meaningful connections on DayMaker2Day! Share laughs, stories, and create beautiful memories together. Your next friendship is just a click away! 💕"
  const SeniorsFriendly1: string := "✨ Life gets better when we share it! DayMaker2Day brings people together for fun activities, heartwarming conversations, and genuine connections. Join our caring community today! 🤗"
  const SeniorsFriendly2: string := "💖 Every day is a gift - make it count! DayMaker2Day helps you connect with amazing people through fun activities and meaningful conversations. Come be part of our family! 🏡"
  const SeniorsProfessional0: string := "DayMaker2Day: The premier platform for meaningful social connections through structured activities and video calls. Join a community focused on combating isolation and building lasting relationships."
  const SeniorsProfessional1: string := "Experience the future of social connectivity with DayMaker2Day. Our platform offers curated activities designed to foster authentic relationships and reduce social isolation among adults."
  const SeniorsProfessional2: string := "Transform your daily routine with DayMaker2Day - where technology meets human connection through purposeful activities and face-to-face interactions."
  const SeniorsEnthusiastic0: string := "🚀 AMAZING connections await you on DayMaker2Day! Join the FUN revolution where every activity sparkles with laughter and friendship! Don't miss out - your BEST conversations start HERE! ⭐🎉"
  const SeniorsEnthusiastic1: string := "🎊 WOW! DayMaker2Day is THE place where friendships BLOOM! Jump into exciting activities, share incredible moments, and meet your new favorite people! The magic happens NOW! ✨💫"
  const SeniorsEnthusiastic2: string := "🌈 INCREDIBLE adventures in friendship start at DayMaker2Day! Connect, laugh, create memories, and discover how AMAZING life becomes when shared! Join the excitement TODAY! 🎯🎈"
  const EveryoneFriendly0: string := "🌟 Make every day brighter! DayMaker2Day connects people of all ages through fun activities and genuine conversations. Whether you're 18 or 80, your perfect connection awaits! 💕"
  const EveryoneFriendly1: string := "✨ Connection knows no age! Join DayMaker2Day and discover how meaningful relationships bloom through shared activities and heartfelt conversations. All ages welcome! 🤗"
  const EveryoneFriendly2: string := "💖 From young adults to wise elders - everyone belongs at DayMaker2Day! Share experiences, learn from each other, and create beautiful friendships that span generations! 🌍"
  const EveryoneProfessional0: string := "DayMaker2Day: An inclusive platform fostering intergenerational connections through purposeful activities. Designed for individuals seeking authentic relationships across all life stages."
  const EveryoneProfessional1: string := "Experience meaningful social connectivity with DayMaker2Day. Our platform bridges generational gaps through structured activities and video-based interactions for users of all ages."
  const EveryoneProfessional2: string := "Join a diverse community of connection-seekers on DayMaker2Day. Our age-inclusive platform facilitates genuine relationships through shared interests and activities."
  const EveryoneEnthusiastic0: string := "🚀 EPIC connections for EVERY age! DayMaker2Day brings together the young, the wise, and everyone in between! Experience the POWER of cross-generational friendship! Join NOW! ⭐🎉"
  const EveryoneEnthusiastic1: string := "🎊 AMAZING people of ALL ages are waiting to meet YOU! DayMaker2Day breaks down barriers and builds bridges through FUN activities! Don't wait - dive into the adventure! ✨💫"
  const EveryoneEnthusiastic2: string := "🌈 INCREDIBLE diversity, UNLIMITED possibilities! DayMaker2Day celebrates connections across ALL generations! From teens to grandparents - everyone's story matters here! 🎯🎈"
  const FamiliesFriendly0: string := "👨‍👩‍👧‍👦 Bring families together with DayMaker2Day! Create precious memories through activities designed to connect parents, kids, and grandparents. Every moment becomes special! 💝"
  const FamiliesFriendly1: string := "🏠 Family time just got better! DayMaker2Day offers activities perfect for bonding across generations. From virtual game nights to storytelling sessions - strengthen your family bonds! 🌟"
  const FamiliesFriendly2: string := "💕 Distance can't break family love! DayMaker2Day helps families stay connected through fun activities and meaningful conversations. Make every call count! 👪"
  const FamiliesProfessional0: string := "DayMaker2Day: Strengthening family bonds through structured virtual activities. Our platform facilitates meaningful interactions between family members across distances and generations."
  const FamiliesProfessional1: string := "Enhance family connectivity with DayMaker2Day's purposeful activity framework. Designed to foster communication and shared experiences among family members of all ages."
  const FamiliesProfessional2: string := "Reconnect with family through DayMaker2Day's comprehensive activity platform. Bridge generational gaps and maintain strong family relationships regardless of physical distance."
  const FamiliesEnthusiastic0: string := "🎉 FAMILY FUN like never before! DayMaker2Day turns every call into a CELEBRATION of family love! Games, stories, laughter - create UNFORGETTABLE memories together! 👨‍👩‍👧‍👦✨"
  const FamiliesEnthusiastic1: string := "🌟 INCREDIBLE family adventures await! DayMaker2Day brings the MAGIC of togetherness to every screen! Grandparents, parents, kids - ALL having a BLAST! Join the family party! 🎊💖"
  const FamiliesEnthusiastic2: string := "💫 AMAZING family connections start HERE! DayMaker2Day transforms ordinary calls into EXTRAORDINARY family experiences! The FUN never stops! 🚀👪🎈"

  /** The message templates, three per audience and tone. */
  function Templates(target: Target, tone: Tone): (r: seq<string>)
    ensures |r| == 3
  {
    match (target, tone)
    case (Seniors, Friendly) => [SeniorsFriendly0, SeniorsFriendly1, SeniorsFriendly2]
    case (Seniors, Professional) => [SeniorsProfessional0, SeniorsProfessional1, SeniorsProfessional2]
    case (Seniors, Enthusiastic) => [SeniorsEnthusiastic0, SeniorsEnthusiastic1, SeniorsEnthusiastic2]
    case (Everyone, Friendly) => [EveryoneFriendly0, EveryoneFriendly1, EveryoneFriendly2]
    case (Everyone, Professional) => [EveryoneProfessional0, EveryoneProfessional1, EveryoneProfessional2]
    case (Everyone, Enthusiastic) => [EveryoneEnthusiastic0, EveryoneEnthusiastic1, EveryoneEnthusiastic2]
    case (Families, Friendly) => [FamiliesFriendly0, FamiliesFriendly1, FamiliesFriendly2]
    case (Families, Professional) => [FamiliesProfessional0, FamiliesProfessional1, FamiliesProfessional2]
    case (Families, Enthusiastic) => [FamiliesEnthusiastic0, FamiliesEnthusiastic1, FamiliesEnthusiastic2]
  }

  class SettingsPanel {
    var password: string
    var isAuthenticated: bool
    var botMessage: string
    var botTarget: Target
    var botTone: Tone

    constructor ()
      ensures password == "" && !isAuthenticated && botMessage == ""
      ensures botTarget == Seniors && botTone == Friendly
    {
      password, isAuthenticated, botMessage := "", false, "";
      botTarget, botTone := Seniors, Friendly;
    }

    method PasswordChange(value: string)
      modifies this
      ensures password == value
      ensures isAuthenticated == old(isAuthenticated) && botMessage == old(botMessage)
      ensures botTarget == old(botTarget) && botTone == old(botTone)
    {
      password := value;
    }

    /** Submitting the password unlocks the panel when it is accepted and alerts otherwise;
        the field is cleared in both cases and a wrong entry leaves the lock as it was. */
    method PasswordSubmit() returns (alert: Option<string>)
      modifies this
      ensures Accepts(old(password)) ==> isAuthenticated && alert == None
      ensures !Accepts(old(password)) ==> isAuthenticated == old(isAuthenticated) && alert == Some(MsgIncorrect)
      ensures password == ""
      ensures botMessage == old(botMessage) && botTarget == old(botTarget) && botTone == old(botTone)
    {
      if Lower(password) == Password {
        isAuthenticated := true;
        password := "";
        alert := None;
      } else {
        alert := Some(MsgIncorrect);
        password := "";
      }
    }

    method TargetChange(value: Target)
      modifies this
      ensures botTarget == value
      ensures password == old(password) && isAuthenticated == old(isAuthenticated)
      ensures botMessage == old(botMessage) && botTone == old(botTone)
    {
      botTarget := value;
    }

    method ToneChange(value: Tone)
      modifies this
      ensures botTone == value
      ensures password == old(password) && isAuthenticated == old(isAuthenticated)
      ensures botMessage == old(botMessage) && botTarget == old(botTarget)
    {
      botTone := value;
    }

    /** Picks one of the three templates for the chosen audience and tone; `pick` is the
        random index `floor(random * 3)`. */
    method GenerateBotMessage(pick: nat)
      requires pick < 3
      modifies this
      ensures botMessage == Templates(botTarget, botTone)[pick]
      ensures botMessage in Templates(botTarget, botTone)
      ensures password == old(password) && isAuthenticated == old(isAuthenticated)
      ensures botTarget == old(botTarget) && botTone == old(botTone)
    {
      var messages := Templates(botTarget, botTone);
      botMessage := messages[pick];
    }

    /** The lock button: back to the password prompt with no message showing. */
    method Lock()
      modifies this
      ensures !isAuthenticated && botMessage == ""
      ensures password == old(password) && botTarget == old(botTarget) && botTone == old(botTone)
    {
      isAuthenticated := false;
      botMessage := "";
    }
  }
}
