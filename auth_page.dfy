/** The sign-in page: phone-number formatting, login by phone number, sign-up
    with a random four-digit access code, and quick access by that code.  The
    saved-users dictionary is an association list in insertion order, so that
    "the first saved user with this code" is meaningful; assigning an existing
    key replaces its entry where it stands, a new key goes at the end. */
module AuthPage {
  import opened Common
  import opened Types

  /** `(ddd) ddd-dddd` built from the first ten of the given digits. */
  function FormatDigits(ns: string): string
    requires AllDigits(ns)
  {
    if |ns| >= 6 then "(" + ns[..3] + ") " + ns[3..6] + "-" + ns[6..MinInt(10, |ns|)]
    else if |ns| >= 3 then "(" + ns[..3] + ") " + ns[3..]
    else ns
  }

  /** `formatPhone`: every non-digit is dropped, then the digits are punctuated. */
  function FormatPhone(value: string): string {
    FormatDigits(Digits(value))
  }

  /** The layout of a formatted number, character by character.  With six or more
      digits: `(` at 0, the first three digits, `)` at 4, a space at 5, the next three,
      `-` at 9, then digits 7 to 10.  With three to five digits: `(`, three digits, `)`,
      a space, then the rest.  With fewer than three: the digits alone, unpunctuated. */
  lemma FormatPhoneShape(value: string)
    ensures var ns, r := Digits(value), FormatPhone(value);
            (|ns| >= 6 ==>
               |r| == MinInt(10, |ns|) + 4 &&
               r[0] == '(' && r[4] == ')' && r[5] == ' ' && r[9] == '-' &&
               (forall i :: 0 <= i < 3 ==> r[i + 1] == ns[i]) &&
               (forall i :: 3 <= i < 6 ==> r[i + 3] == ns[i]) &&
               (forall i :: 6 <= i < MinInt(10, |ns|) ==> r[i + 4] == ns[i])) &&
            (3 <= |ns| < 6 ==>
               |r| == |ns| + 3 &&
               r[0] == '(' && r[4] == ')' && r[5] == ' ' &&
               (forall i :: 0 <= i < 3 ==> r[i + 1] == ns[i]) &&
               (forall i :: 3 <= i < |ns| ==> r[i + 3] == ns[i])) &&
            (|ns| < 3 ==> r == ns && AllDigits(r))
  {
    var ns, r := Digits(value), FormatPhone(value);
    if |ns| >= 6 {
      var t := MinInt(10, |ns|);
      assert r == "(" + ns[..3] + ") " + ns[3..6] + "-" + ns[6..t];
    } else if |ns| >= 3 {
      assert r == "(" + ns[..3] + ") " + ns[3..];
    }
  }

  /** Formatting keeps exactly the first ten digits of the input, in order. */
  lemma FormatPhoneDigits(value: string)
    ensures Digits(FormatPhone(value)) == Digits(value)[..MinInt(10, |Digits(value)|)]
  {
    var ns := Digits(value);
    if |ns| >= 6 {
      var a, b, c := ns[..3], ns[3..6], ns[6..MinInt(10, |ns|)];
      DigitsSplice5("(", a, ") ", b, "-", c);
      assert a + b + c == ns[..MinInt(10, |ns|)];
    } else if |ns| >= 3 {
      var a, b := ns[..3], ns[3..];
      DigitsSplice5("(", a, ") ", b, "", "");
      assert "(" + a + ") " + b + "" + "" == FormatPhone(value);
      assert a + b + "" == ns;
    } else {
      DigitsOfDigits(ns);
    }
  }

  /** Digits of `p + a + q + b + r + c` where p, q, r hold no digit and a, b, c only digits. */
  lemma DigitsSplice5(p: string, a: string, q: string, b: string, r: string, c: string)
    requires Digits(p) == [] && Digits(q) == [] && Digits(r) == []
    requires AllDigits(a) && AllDigits(b) && AllDigits(c)
    ensures Digits(p + a + q + b + r + c) == a + b + c
  {
    var s1 := p + a;
    DigitsAppend(p, a);
    DigitsOfDigits(a);
    assert Digits(s1) == a;
    var s2 := s1 + q;
    DigitsAppend(s1, q);
    assert Digits(s2) == a;
    var s3 := s2 + b;
    DigitsAppend(s2, b);
    DigitsOfDigits(b);
    assert Digits(s3) == a + b;
    var s4 := s3 + r;
    DigitsAppend(s3, r);
    assert Digits(s4) == a + b;
    var s5 := s4 + c;
    DigitsAppend(s4, c);
    DigitsOfDigits(c);
    assert Digits(s5) == a + b + c;
    assert s5 == p + a + q + b + r + c;
  }

  /** The phone field is re-formatted on every keystroke: formatting a formatted
      number changes nothing. */
  lemma FormatPhoneIdempotent(value: string)
    ensures FormatPhone(FormatPhone(value)) == FormatPhone(value)
  {
    var ns := Digits(value);
    FormatPhoneDigits(value);
    var ms := ns[..MinInt(10, |ns|)];
    assert FormatPhone(FormatPhone(value)) == FormatDigits(ms);
    if |ns| >= 6 {
      var t := MinInt(10, |ns|);
      assert |ms| == t && MinInt(10, |ms|) == t;
      assert ms[..3] == ns[..3];
      assert ms[3..6] == ns[3..6];
      assert ms[6..t] == ns[6..t];
    } else {
      assert ms == ns;
    }
  }

  /** A formatted number is long enough for sign-in (14 characters) exactly when it
      holds ten digits; ten digits give exactly 14 characters. */
  lemma FormatPhoneLength(value: string)
    ensures |FormatPhone(value)| >= 14 <==> |Digits(value)| >= 10
    ensures |Digits(value)| == 10 ==> |FormatPhone(value)| == 14
    ensures |FormatPhone(value)| <= 14
  {
  }

  /** The quick-access field keeps only digits, and at most four of them. */
  function CodeFilter(value: string): (r: string)
    ensures AllDigits(r) && |r| <= 4
    ensures r == Digits(value)[..MinInt(4, |Digits(value)|)]
  {
    var ns := Digits(value);
    ns[..MinInt(4, |ns|)]
  }

  /** Filtering a filtered code changes nothing, and a four-digit code passes intact. */
  lemma CodeFilterStable(value: string)
    ensures CodeFilter(CodeFilter(value)) == CodeFilter(value)
    ensures |value| == 4 && AllDigits(value) ==> CodeFilter(value) == value
  {
    DigitsOfDigits(CodeFilter(value));
    if AllDigits(value) {
      DigitsOfDigits(value);
    }
  }

  /** One entry of the saved-users dictionary. */
  datatype SavedUser = SavedUser(
    name: string, phone: string, email: string, plan: Plan, accessCode: string,
    signupDate: string, lastLogin: string)

  type Users = seq<(string, SavedUser)>

  ghost predicate UniqueKeys(users: Users) {
    forall i, j :: 0 <= i < j < |users| ==> users[i].0 != users[j].0
  }

  /** `savedUsers[key]`, None when absent. */
  function Lookup(users: Users, key: string): (r: Option<SavedUser>)
    ensures r.None? <==> forall i :: 0 <= i < |users| ==> users[i].0 != key
    ensures r.Some? ==> (key, r.value) in users
  {
    if users == [] then None
    else if users[0].0 == key then Some(users[0].1)
    else
      assert forall i :: 0 < i < |users| ==> users[i] == users[1..][i - 1];
      Lookup(users[1..], key)
  }

  /** `savedUsers[key] = user`. */
  function Put(users: Users, key: string, user: SavedUser): (r: Users)
    ensures |r| == |users| || |r| == |users| + 1
    ensures |r| == |users| + 1 <==> Lookup(users, key).None?
  {
    if users == [] then [(key, user)]
    else if users[0].0 == key then [(key, user)] + users[1..]
    else [users[0]] + Put(users[1..], key, user)
  }

  /** After a write the key holds the new entry, every other key holds what it held,
      and keys stay distinct. */
  lemma {:induction false} PutLookup(users: Users, key: string, user: SavedUser, other: string)
    ensures Lookup(Put(users, key, user), key) == Some(user)
    ensures other != key ==> Lookup(Put(users, key, user), other) == Lookup(users, other)
  {
    if users != [] && users[0].0 != key {
      PutLookup(users[1..], key, user, other);
      assert Put(users, key, user)[1..] == Put(users[1..], key, user);
    } else if users != [] {
      assert Put(users, key, user)[1..] == users[1..];
    }
  }

  lemma {:induction false} PutUnique(users: Users, key: string, user: SavedUser)
    requires UniqueKeys(users)
    ensures UniqueKeys(Put(users, key, user))
  {
    if users != [] && users[0].0 != key {
      var tail := users[1..];
      assert UniqueKeys(tail);
      PutUnique(tail, key, user);
      var pt := Put(tail, key, user);
      var r := [users[0]] + pt;
      forall j | 0 < j < |r| ensures r[0].0 != r[j].0 {
        PutKeys(tail, key, user, j - 1);
      }
    }
  }

  /** Each key of `Put(users, key, user)` is `key` or a key of `users`. */
  lemma {:induction false} PutKeys(users: Users, key: string, user: SavedUser, j: nat)
    requires j < |Put(users, key, user)|
    ensures Put(users, key, user)[j].0 == key || exists i :: 0 <= i < |users| && users[i].0 == Put(users, key, user)[j].0
  {
    if users != [] && users[0].0 != key && j > 0 {
      PutKeys(users[1..], key, user, j - 1);
      var k := Put(users, key, user)[j].0;
      if k != key {
        var i :| 0 <= i < |users[1..]| && users[1..][i].0 == k;
        assert users[i + 1].0 == k;
      }
    }
  }

  /** Index of the first saved user whose access code is `code`. */
  function FirstWithCode(users: Users, code: string): (r: Option<nat>)
    ensures r.Some? ==> r.value < |users| && users[r.value].1.accessCode == code &&
                        forall j :: 0 <= j < r.value ==> users[j].1.accessCode != code
    ensures r.None? ==> forall j :: 0 <= j < |users| ==> users[j].1.accessCode != code
  {
    if users == [] then None
    else if users[0].1.accessCode == code then Some(0)
    else match FirstWithCode(users[1..], code)
      case None => None
      case Some(i) => Some(i + 1)
  }

  datatype Step = AuthStep | PaymentStep

  datatype AuthResult = Completed(user: UserInfo) | Alerted(message: string) | ToPayment

  const TestPhoneDigits: string := "5551234567"
  const TestCode: string := "1234"
  const TestUser: UserInfo := UserInfo("(555) 123-4567", Premium, "Test User", "test@daymaker2day.com")

  const MsgIncompletePhone: string := "Please enter your complete phone number"
  const MsgEnterName: string := "Please enter your name"
  const MsgPhoneNotFound: string := "Phone number not found. Please sign up first.\n\n💡 Testing? Use: (555) 123-4567"
  const MsgEnterCode: string := "Please enter your 4-digit access code"
  const MsgCodeNotFound: string := "Access code not found. Please check your code.\n\n💡 Testing? Use code: 1234"

  /** The user handed on after a successful sign-in from a saved entry. */
  function FromSaved(s: SavedUser, phone: string): UserInfo {
    UserInfo(phone, s.plan, s.name, s.email)
  }

  /** What submitting the phone form does: too short a number or (on sign-up) an
      empty name raises an alert; a login completes for the test number or a saved
      number and alerts otherwise; a sign-up moves on to the plan choice. */
  function AuthDecision(isLogin: bool, phone: string, name: string, users: Users): (r: AuthResult)
    ensures |phone| < 14 ==> r == Alerted(MsgIncompletePhone)
    ensures |phone| >= 14 && !isLogin && name == "" ==> r == Alerted(MsgEnterName)
    ensures |phone| >= 14 && !isLogin && name != "" ==> r == ToPayment
    ensures |phone| >= 14 && isLogin ==>
              (r.Completed? <==> Digits(phone) == TestPhoneDigits || Lookup(users, Digits(phone)).Some?)
    ensures |phone| >= 14 && isLogin && Digits(phone) == TestPhoneDigits ==> r == Completed(TestUser)
    ensures |phone| >= 14 && isLogin && Digits(phone) != TestPhoneDigits && Lookup(users, Digits(phone)).Some? ==>
              r == Completed(FromSaved(Lookup(users, Digits(phone)).value, phone))
    ensures r.Alerted? && isLogin && |phone| >= 14 ==> r.message == MsgPhoneNotFound
  {
    if |phone| < 14 then Alerted(MsgIncompletePhone)
    else if !isLogin && name == "" then Alerted(MsgEnterName)
    else if isLogin then
      var clean := Digits(phone);
      if clean == TestPhoneDigits then Completed(TestUser)
      else match Lookup(users, clean)
        case Some(s) => Completed(FromSaved(s, phone))
        case None => Alerted(MsgPhoneNotFound)
    else ToPayment
  }

  /** What the quick-access button does with the entered code. */
  function QuickAccessDecision(code: string, users: Users): (r: AuthResult)
    ensures |code| != 4 ==> r == Alerted(MsgEnterCode)
    ensures code == TestCode ==> r == Completed(TestUser)
    ensures |code| == 4 && code != TestCode ==>
              match FirstWithCode(users, code)
              case Some(i) => r == Completed(FromSaved(users[i].1, users[i].1.phone))
              case None => r == Alerted(MsgCodeNotFound)
    ensures !r.ToPayment?
  {
    if |code| != 4 then Alerted(MsgEnterCode)
    else if code == TestCode then Completed(TestUser)
    else match FirstWithCode(users, code)
      case Some(i) => Completed(FromSaved(users[i].1, users[i].1.phone))
      case None => Alerted(MsgCodeNotFound)
  }

  /** A user whose randomly drawn code happens to be 1234 can never reach their own
      account by code: quick access with it always opens the test account. */
  lemma TestCodeShadowsSignup(users: Users, key: string, user: SavedUser)
    requires user.accessCode == TestCode
    ensures QuickAccessDecision(user.accessCode, Put(users, key, user)) == Completed(TestUser)
  {
  }

  class AuthPageState {
    var step: Step
    var isLogin: bool
    var phone: string
    var name: string
    var email: string
    var selectedPlan: Option<Plan>
    var simpleCode: string
    /** The `daymaker_users` dictionary. */
    var users: Users

    constructor (stored: Users)
      ensures step == AuthStep && isLogin && phone == "" && name == "" && email == ""
      ensures selectedPlan == None && simpleCode == "" && users == stored
    {
      step := AuthStep;
      isLogin := true;
      phone := "";
      name := "";
      email := "";
      selectedPlan := None;
      simpleCode := "";
      users := stored;
    }

    method PhoneChange(value: string)
      modifies this
      ensures phone == FormatPhone(value)
      ensures step == old(step) && isLogin == old(isLogin) && name == old(name) && email == old(email)
      ensures selectedPlan == old(selectedPlan) && simpleCode == old(simpleCode) && users == old(users)
    {
      phone := FormatPhone(value);
    }

    method NameChange(value: string)
      modifies this
      ensures name == value
      ensures step == old(step) && isLogin == old(isLogin) && phone == old(phone) && email == old(email)
      ensures selectedPlan == old(selectedPlan) && simpleCode == old(simpleCode) && users == old(users)
    {
      name := value;
    }

    method EmailChange(value: string)
      modifies this
      ensures email == value
      ensures step == old(step) && isLogin == old(isLogin) && phone == old(phone) && name == old(name)
      ensures selectedPlan == old(selectedPlan) && simpleCode == old(simpleCode) && users == old(users)
    {
      email := value;
    }

    /** The link under the form switches between signing in and signing up. */
    method ToggleMode()
      modifies this
      ensures isLogin == !old(isLogin)
      ensures step == old(step) && phone == old(phone) && name == old(name) && email == old(email)
      ensures selectedPlan == old(selectedPlan) && simpleCode == old(simpleCode) && users == old(users)
    {
      isLogin := !isLogin;
    }

    method CodeChange(value: string)
      modifies this
      ensures simpleCode == CodeFilter(value)
      ensures step == old(step) && isLogin == old(isLogin) && phone == old(phone) && name == old(name)
      ensures email == old(email) && selectedPlan == old(selectedPlan) && users == old(users)
    {
      var ns := Digits(value);
      simpleCode := ns[..MinInt(4, |ns|)];
    }

    /** The "Back to Sign In" link under the plan cards returns to the phone form;
        the fields keep what was typed. */
    method BackToForm()
      modifies this
      ensures step == AuthStep
      ensures isLogin == old(isLogin) && phone == old(phone) && name == old(name) && email == old(email)
      ensures selectedPlan == old(selectedPlan) && simpleCode == old(simpleCode) && users == old(users)
    {
      step := AuthStep;
    }

    /** Submitting the phone form; only a sign-up that passes both checks changes
        state, and then only the step. */
    method HandleAuth() returns (r: AuthResult)
      modifies this
      ensures r == AuthDecision(old(isLogin), old(phone), old(name), old(users))
      ensures step == if r == ToPayment then PaymentStep else old(step)
      ensures isLogin == old(isLogin) && phone == old(phone) && name == old(name) && email == old(email)
      ensures selectedPlan == old(selectedPlan) && simpleCode == old(simpleCode) && users == old(users)
    {
      if |phone| < 14 {
        return Alerted(MsgIncompletePhone);
      }
      if !isLogin && name == "" {
        return Alerted(MsgEnterName);
      }
      if isLogin {
        var cleanPhone := Digits(phone);
        if cleanPhone == TestPhoneDigits {
          return Completed(TestUser);
        }
        var saved := Lookup(users, cleanPhone);
        if saved.Some? {
          return Completed(FromSaved(saved.value, phone));
        }
        return Alerted(MsgPhoneNotFound);
      }
      step := PaymentStep;
      r := ToPayment;
    }

    /** Choosing a plan: the new user is saved under the digits of the phone number
        with the drawn access code (`code` stands for the random draw, 1000..9999),
        and sign-up completes with the entered details. */
    method HandlePayment(planId: Plan, code: nat, now: string) returns (r: AuthResult)
      requires 1000 <= code <= 9999
      modifies this
      ensures selectedPlan == Some(planId)
      ensures users == Put(old(users), Digits(phone), SavedUser(name, phone, email, planId, NatToString(code), now, now))
      ensures r == Completed(UserInfo(phone, planId, name, email))
      ensures |NatToString(code)| == 4
      ensures step == old(step) && isLogin == old(isLogin) && phone == old(phone) && name == old(name)
      ensures email == old(email) && simpleCode == old(simpleCode)
    {
      selectedPlan := Some(planId);
      var accessCode := NatToString(code);
      NatToStringFourDigits(code);
      var cleanPhone := Digits(phone);
      var userData := SavedUser(name, phone, email, planId, accessCode, now, now);
      users := Put(users, cleanPhone, userData);
      r := Completed(UserInfo(phone, planId, name, email));
    }

    /** Looks up the entered code among the saved users, first match in order. */
    method HandleQuickAccess() returns (r: AuthResult)
      ensures r == QuickAccessDecision(simpleCode, users)
    {
      if |simpleCode| != 4 {
        return Alerted(MsgEnterCode);
      }
      if simpleCode == TestCode {
        return Completed(TestUser);
      }
      var i := 0;
      while i < |users|
        invariant 0 <= i <= |users|
        invariant forall j :: 0 <= j < i ==> users[j].1.accessCode != simpleCode
      {
        var userData := users[i].1;
        if userData.accessCode == simpleCode {
          FirstWithCodeAt(users, simpleCode, i);
          return Completed(FromSaved(userData, userData.phone));
        }
        i := i + 1;
      }
      r := Alerted(MsgCodeNotFound);
    }
  }

  /** The first match is at `i` when entry `i` matches and none before it does. */
  lemma FirstWithCodeAt(users: Users, code: string, i: nat)
    requires i < |users| && users[i].1.accessCode == code
    requires forall j :: 0 <= j < i ==> users[j].1.accessCode != code
    ensures FirstWithCode(users, code) == Some(i)
  {
  }
}
