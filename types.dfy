/** The record shapes of the application (`Activity`, `Appointment`, the signed-in
    user, the plans) and its catalogue of 32 activities, of which four are premium-only. */
module Types {

  datatype Plan = Basic | Premium

  /** `premium` is the optional flag of the source; an absent flag reads as false. */
  datatype Activity = Activity(emoji: string, title: string, description: string, premium: bool)

  /** An appointment as the scheduling form emits it; `date` is `YYYY-MM-DD`, `time` is `HH:MM`. */
  datatype Appointment = Appointment(
    id: string, date: string, time: string, activity: Activity, clientName: string, notes: string)

  /** The signed-in user that the sign-in page hands to the application. */
  datatype UserInfo = UserInfo(phone: string, plan: Plan, name: string, email: string)

  const ContentCreationTitle: string := "Content Creation"

  const Catalogue: seq<Activity> := [
      Activity("☕", "Virtual Coffee Chat",
               "Make your favorite drinks and catch up — no agenda, just easy conversation.", false),
      Activity("🎶", "Name That Tune",
               "Play or hum old songs; take turns guessing the title and artist.", false),
      Activity("🖼️", "Show & Tell",
               "Each bring one item from your home with a story behind it.", false),
      Activity("🤔", "Would You Rather?",
               "Ask each other funny or silly “Would you rather…” questions.", false),
      Activity("📖", "Story Swap",
               "Take turns telling short stories from childhood or funny life moments.", false),
      Activity("🍪", "Virtual Snack Time",
               "Eat the same snack and rate it — “9/10, needs more chocolate!”", false),
      Activity("😄", "Two Truths and a Lie",
               "Share 3 statements — two true, one false — and guess which is which.", false),
      Activity("🧠", "Trivia Time",
               "Use easy trivia questions — movies, music, history, or family memories.", false),
      Activity("🌀", "Riddle Round",
               "Take turns reading riddles or jokes — keep score just for laughs.", false),
      Activity("📸", "Photo Guess Game",
               "Share old or funny pictures and have them guess the story behind it.", false),
      Activity("✏️", "Draw & Show",
               "Each doodle something silly and reveal it at the same time.", false),
      Activity("🎬", "30-Minute Mini Movie",
               "Watch the same short film or YouTube clip, then chat about it.", false),
      Activity("🎤", "Karaoke Call",
               "Sing along to a favorite song with lyrics on screen (or just hum!).", false),
      Activity("🔤", "Word Chain Game",
               "Say a word — the next person says one that starts with the last letter.", false),
      Activity("🎯", "Online Bingo",
               "Use a free printable bingo card and play together via video.", false),
      Activity("🅰️", "Alphabet Challenge",
               "Pick a topic (animals, foods, songs) and name one for each letter.", false),
      Activity("🐶", "Pet or Plant Show",
               "Introduce pets or plants and tell a fun fact about each.", false),
      Activity("🔊", "Guess the Sound",
               "Make a sound near the mic — they guess what it is (whisk, water, pen click).", false),
      Activity("😂", "Emoji Story Game",
               "Send three emojis and have them guess the story or emotion behind them.", false),
      Activity("💬", "Finish the Phrase",
               "Start a phrase like “You know you’re old when…” and let them complete it.", false),
      Activity("🧓", "Memory Match",
               "Name old TV shows or celebs — see who remembers the most.", false),
      Activity("🌴", "Virtual Vacation",
               "Use Google Earth or YouTube to \"travel\" to a beautiful spot together.", true),
      Activity("🤳", "Silly Selfie Contest",
               "Make the goofiest face and vote who wins.", false),
      Activity("👪", "Family Guess Game",
               "Describe a family member without saying their name — they guess who!", false),
      Activity("📺", "Nostalgia Night",
               "Look up old commercials, jingles, or shows from their youth and laugh.", true),
      Activity("🎵", "Finish the Lyrics",
               "Sing half a line — they finish it!", false),
      Activity("🎨", "Online Coloring Together",
               "Use a free site like Sketchpad.io or just color on paper while you chat.", false),
      Activity("⚡", "“This or That” Game",
               "Coffee or tea? Cats or dogs? Sunrise or sunset? Quick choices, lots of laughs.", false),
      Activity("🗺️", "Bucket List Talk",
               "Each list five fun or silly things you’d like to do someday.", false),
      Activity("🌞", "Good News Roundup",
               "Each find and share one happy, funny, or uplifting story from the week.", false),
      Activity("💻", "Tech/Device Help",
               "Get friendly help with your phone, computer, or any device questions.", true),
      Activity("🎨", "Content Creation",
               "Create virtual cards, simple images, or digital memories together.", true)
    ]

  /** Exactly four activities are premium-only, Content Creation among them. */
  lemma CataloguePremium()
    ensures |Catalogue| == 32
    ensures forall i :: 0 <= i < |Catalogue| ==> (Catalogue[i].premium <==> i in {21, 24, 30, 31})
    ensures Catalogue[21].title == "Virtual Vacation" && Catalogue[24].title == "Nostalgia Night"
    ensures Catalogue[30].title == "Tech/Device Help" && Catalogue[31].title == ContentCreationTitle
  {
  }
}
