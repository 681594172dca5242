/**
 * The generator form of the main page: the submit predicates, the password
 * strength meter, the random password, the Wi-Fi join string handed to the QR
 * encoder, and the form state with its submit and reset handlers.
 */
module Generator {
  import opened Wrappers
  import opened Text
  import opened Auth
  import opened EncryptionChoice
  import opened QrSession

  /** `encryption && encryption !== 'OPEN'` */
  predicate IsPasswordRequired(enc: Option<Security>)
  {
    enc.Some? && enc.value != OPEN
  }

  /** WPA and WEP ask for a password; OPEN and "nothing selected" do not. */
  lemma PasswordRequiredOnlyForWpaAndWep()
    ensures IsPasswordRequired(Some(WPA)) && IsPasswordRequired(Some(WEP))
    ensures !IsPasswordRequired(Some(OPEN)) && !IsPasswordRequired(None)
  {
  }

  /** `allRequiredFieldsFilled`, which enables the submit button. */
  function AllRequiredFieldsFilled(title: string, ssid: string, password: string, enc: Option<Security>): (r: bool)
    ensures r <==> && !IsBlank(title) && !IsBlank(ssid) && enc.Some?
                   && (IsPasswordRequired(enc) ==> !IsBlank(password))
  {
    TrimEmptyIffBlank(title);
    TrimEmptyIffBlank(ssid);
    TrimEmptyIffBlank(password);
    Trim(title) != "" && Trim(ssid) != "" && enc.Some? && (!IsPasswordRequired(enc) || Trim(password) != "")
  }

  datatype StrengthLabel = NoLabel | Weak | Medium | Strong | VeryStrong

  /** The meter: a width in percent and a label. */
  datatype Strength = Strength(width: nat, rating: StrengthLabel)

  /** `getPasswordStrength`: buckets of `pwd.length`, counted in UTF-16 code units: 0 / under 6 / under 10 / under 15 / longer. */
  function PasswordStrength(pwd: string): (r: Strength)
    ensures r.width == 0 <==> pwd == ""
    ensures r.width in {0, 25, 50, 75, 100}
    ensures r.rating == NoLabel <==> pwd == ""
    ensures r.width == 25 <==> 0 < JsLength(pwd) < 6
    ensures r.width == 50 <==> 6 <= JsLength(pwd) < 10
    ensures r.width == 75 <==> 10 <= JsLength(pwd) < 15
    ensures r.width == 100 <==> 15 <= JsLength(pwd)
  {
    if pwd == "" then Strength(0, NoLabel)
    else if JsLength(pwd) < 6 then Strength(25, Weak)
    else if JsLength(pwd) < 10 then Strength(50, Medium)
    else if JsLength(pwd) < 15 then Strength(75, Strong)
    else Strength(100, VeryStrong)
  }

  /** A longer password never shows a smaller width. */
  lemma StrengthIsMonotone(a: string, b: string)
    requires JsLength(a) <= JsLength(b)
    ensures PasswordStrength(a).width <= PasswordStrength(b).width
  {
  }

  /** A character beyond U+FFFF counts twice: three emoji are a medium password, three letters a weak one. */
  lemma StrengthCountsCodeUnits()
    ensures PasswordStrength("\U{1F600}\U{1F600}\U{1F600}").width == 50
    ensures PasswordStrength("abc").width == 25
  {
    var e := "\U{1F600}\U{1F600}\U{1F600}";
    assert e[1..][1..][1..] == [];
    assert JsLength(e) == 6;
    var a := "abc";
    assert a[1..][1..][1..] == [];
    assert JsLength(a) == 3;
  }

  const CHARSET := "ABCDEFGHIJKLMNOPQRSTUVWXYZabcdefghijklmnopqrstuvwxyz0123456789!@#$%^&*"
  const PASSWORD_LENGTH: nat := 16

  /** `generateRandomPassword`'s loop: sixteen characters, each drawn from the charset at a random index. */
  method RandomPassword() returns (r: string)
    ensures |r| == PASSWORD_LENGTH
    ensures forall i :: 0 <= i < |r| ==> r[i] in CHARSET
  {
    r := "";
    for i := 0 to PASSWORD_LENGTH
      invariant |r| == i
      invariant forall k :: 0 <= k < i ==> r[k] in CHARSET
    {
      var pick :| 0 <= pick < |CHARSET|;
      r := r + [CHARSET[pick]];
    }
  }

  /** `encryption || 'nopass'` */
  function TagOf(enc: Option<Security>): string
  {
    if enc.Some? then enc.value.Name() else "nopass"
  }

  /** The string handed to the QR encoder; no character of the name or password is escaped. */
  function JoinString(enc: Option<Security>, ssid: string, password: string): string
  {
    "WIFI:T:" + TagOf(enc) + ";S:" + ssid + ";P:" + password + ";;"
  }

  /** The three fields a reader finds in a join string. */
  datatype JoinFields = JoinFields(tag: string, ssid: string, password: string)

  /** Strips the literal `p` from the front of `s`. */
  function Expect(p: string, s: string): Option<string>
  {
    if |p| <= |s| && s[..|p|] == p then Some(s[|p|..]) else None
  }

  /** Splits `s` at its first ';'. */
  function UpToSemicolon(s: string): Option<(string, string)>
  {
    match IndexOf(s, ';')
    case None => None
    case Some(i) => Some((s[..i], s[i + 1..]))
  }

  /** Reads `WIFI:T:<tag>;S:<ssid>;P:<password>;;`, each field running to its first ';'. */
  function ParseJoinString(s: string): Option<JoinFields>
  {
    match Expect("WIFI:T:", s)
    case None => None
    case Some(r1) =>
      match UpToSemicolon(r1)
      case None => None
      case Some((tag, r2)) =>
        match Expect("S:", r2)
        case None => None
        case Some(r3) =>
          match UpToSemicolon(r3)
          case None => None
          case Some((ssid, r4)) =>
            match Expect("P:", r4)
            case None => None
            case Some(r5) =>
              match UpToSemicolon(r5)
              case None => None
              case Some((password, rest)) =>
                if rest == ";" then Some(JoinFields(tag, ssid, password)) else None
  }

  lemma ExpectOf(p: string, t: string)
    ensures Expect(p, p + t) == Some(t)
  {
    assert (p + t)[..|p|] == p && (p + t)[|p|..] == t;
  }

  lemma UpToSemicolonOf(a: string, b: string)
    requires ';' !in a
    ensures UpToSemicolon(a + ";" + b) == Some((a, b))
  {
    var s := a + ";" + b;
    assert s[|a|] == ';';
    var i := IndexOf(s, ';');
    assert i.Some?;
    assert i.value == |a|;
    assert s[..|a|] == a && s[|a| + 1..] == b;
  }

  /** With no ';' in the name or the password, the join string reads back as the tag, name and password. */
  lemma JoinStringRoundTrip(enc: Option<Security>, ssid: string, password: string)
    requires ';' !in ssid && ';' !in password
    ensures ParseJoinString(JoinString(enc, ssid, password)) == Some(JoinFields(TagOf(enc), ssid, password))
  {
    var tag := TagOf(enc);
    assert ';' !in tag by {
      if enc.Some? {
        match enc.value
        case WPA =>
        case WEP =>
        case OPEN =>
      }
    }
    var r5 := password + ";" + ";";
    var r4 := "P:" + r5;
    var r3 := ssid + ";" + r4;
    var r2 := "S:" + r3;
    var r1 := tag + ";" + r2;
    assert JoinString(enc, ssid, password) == "WIFI:T:" + r1;
    ExpectOf("WIFI:T:", r1);
    UpToSemicolonOf(tag, r2);
    ExpectOf("S:", r3);
    UpToSemicolonOf(ssid, r4);
    ExpectOf("P:", r5);
    UpToSemicolonOf(password, ";");
  }

  /** Without escaping, a ';' in the network name can mimic the password field: two forms, one string. */
  lemma JoinStringIsAmbiguous()
    ensures JoinString(Some(WPA), "x;P:y", "") == JoinString(Some(WPA), "x", "y;P:")
  {
  }

  /** Selecting OPEN puts the literal tag `OPEN` in the string; selecting nothing puts `nopass`. */
  lemma TagOfOpenAndNone(ssid: string, password: string)
    ensures JoinString(Some(OPEN), ssid, password) == "WIFI:T:OPEN;S:" + ssid + ";P:" + password + ";;"
    ensures JoinString(None, ssid, password) == "WIFI:T:nopass;S:" + ssid + ";P:" + password + ";;"
  {
  }

  /** What a submit leads to. */
  datatype SubmitOutcome = MustSignIn | QrFailed | QrReady | NotSaved

  /**
   * The main page's form values, the form's default values, its selected encryption and its auto-reset
   * timer. The defaults are react-hook-form's: `reset(values)` makes `values` the new defaults, and an
   * argument-less `reset()` restores the current defaults.
   */
  class MainPage {
    var customTitle: string
    var ssid: string
    var password: string
    var defaultTitle: string
    var defaultSsid: string
    var defaultPassword: string
    var encryption: Option<Security>
    var autoResetPending: bool
    const session: GlobalProvider

    /** `useForm({ defaultValues: { custom_title: '', ssid: '', password: '' } })` */
    constructor (session: GlobalProvider)
      ensures this.session == session
      ensures customTitle == "" && ssid == "" && password == "" && encryption.None? && !autoResetPending
      ensures defaultTitle == "" && defaultSsid == "" && defaultPassword == ""
    {
      this.session := session;
      customTitle, ssid, password := "", "", "";
      defaultTitle, defaultSsid, defaultPassword := "", "", "";
      encryption := None;
      autoResetPending := false;
    }

    /** Whether the submit button is enabled. */
    function SubmitEnabled(): (r: bool)
      reads this
      ensures r <==> && !IsBlank(customTitle) && !IsBlank(ssid) && encryption.Some?
                     && (IsPasswordRequired(encryption) ==> !IsBlank(password))
    {
      AllRequiredFieldsFilled(customTitle, ssid, password, encryption)
    }

    /** The form's defaults, as a triple of title, ssid and password. */
    function Defaults(): (string, string, string)
      reads this
    {
      (defaultTitle, defaultSsid, defaultPassword)
    }

    /** The user types into the three inputs. */
    method EditForm(title: string, network: string, pwd: string)
      modifies this
      ensures customTitle == title && ssid == network && password == pwd
      ensures encryption == old(encryption) && autoResetPending == old(autoResetPending)
      ensures Defaults() == old(Defaults())
    {
      customTitle, ssid, password := title, network, pwd;
    }

    /** A click on an option of the encryption selector (the page passes no `touchEncryption`). */
    method SelectEncryption(option: Security)
      modifies this
      ensures encryption == Click(old(encryption), option, false).selected
      ensures customTitle == old(customTitle) && ssid == old(ssid) && password == old(password)
      ensures autoResetPending == old(autoResetPending) && Defaults() == old(Defaults())
    {
      encryption := Click(encryption, option, false).selected;
    }

    /**
     * `generateRandomPassword`: the password becomes 16 characters of the charset through
     * `reset({...watched, password})`, which also makes the current title, ssid and new password the defaults.
     * Its button belongs to the password input, which is rendered only while a password is required.
     */
    method GenerateRandomPassword()
      requires IsPasswordRequired(encryption)
      modifies this
      ensures |password| == PASSWORD_LENGTH && forall i :: 0 <= i < |password| ==> password[i] in CHARSET
      ensures customTitle == old(customTitle) && ssid == old(ssid) && encryption == old(encryption)
      ensures Defaults() == (customTitle, ssid, password)
      ensures autoResetPending == old(autoResetPending)
    {
      password := RandomPassword();
      defaultTitle, defaultSsid, defaultPassword := customTitle, ssid, password;
    }

    /** `reset()`: the form values return to the current defaults. */
    method ResetForm()
      modifies this
      ensures (customTitle, ssid, password) == Defaults() && Defaults() == old(Defaults())
      ensures encryption == old(encryption) && autoResetPending == old(autoResetPending)
    {
      customTitle, ssid, password := defaultTitle, defaultSsid, defaultPassword;
    }

    /**
     * `handleNetworkSubmit`: without a confirmed user nothing reaches `saveQR`; otherwise the join
     * string goes to the encoder and its url is saved under the display title, with the form hidden.
     * The form's only submit button is disabled until every required field is filled, so a submit
     * starts from a filled form, and a code that is shown has a title and a chosen encryption.
     */
    method HandleNetworkSubmit(user: Option<User>, encode: string -> Option<string>) returns (outcome: SubmitOutcome)
      requires SubmitEnabled()
      modifies session
      ensures !IsConfirmed(user) ==> outcome == MustSignIn
      ensures IsConfirmed(user) && encode(JoinString(encryption, ssid, password)).None? ==> outcome == QrFailed
      ensures outcome in {MustSignIn, QrFailed} ==>
        session.State() == old(session.State()) && session.stored == old(session.stored)
      ensures IsConfirmed(user) && encode(JoinString(encryption, ssid, password)).Some? ==>
        && outcome == QrReady
        && session.State() == QrState(encode(JoinString(encryption, ssid, password)), customTitle,
                                      password, TagOf(encryption), false, "")
        && session.stored == Some(SnapshotOf(session.State()))
      ensures outcome == QrReady ==>
        && !IsBlank(session.networkName) && session.networkSecurity in {"WPA", "WEP", "OPEN"}
        && (session.networkSecurity != "OPEN" ==> !IsBlank(session.networkPassword))
    {
      if !IsConfirmed(user) {
        return MustSignIn;
      }
      var enc := TagOf(encryption);
      var wifi := JoinString(encryption, ssid, password);
      var url := encode(wifi);
      if url.None? {
        return QrFailed;
      }
      var ok := session.SaveQR(user, url.value, customTitle, password, enc);
      if ok {
        session.SetFormVisible(false);
        outcome := QrReady;
      } else {
        outcome := NotSaved;
      }
    }

    /**
     * `handleGenerateNew`: cancels the timer, shows the form, resets the form to its defaults, and clears
     * the QR state and the encryption.
     */
    method HandleGenerateNew()
      modifies this, session
      ensures (customTitle, ssid, password) == old(Defaults()) && Defaults() == old(Defaults())
      ensures encryption.None? && !autoResetPending
      ensures session.State() == BLANK && session.stored.None?
    {
      autoResetPending := false;
      session.SetFormVisible(true);
      ResetForm();
      session.ResetQR();
      encryption := None;
    }

    /**
     * The effect on form visibility, url, `resetQR` and `reset`, run after every render of the provider
     * (`resetQR` is a new function each time): the cleanup of the previous run cancels a pending timer,
     * and the run arms a new one exactly when a QR code is shown with the form hidden.
     */
    method AutoResetEffect()
      modifies this
      ensures autoResetPending == (!session.formVisible && Truthy(session.qrUrl))
      ensures customTitle == old(customTitle) && ssid == old(ssid) && password == old(password)
      ensures encryption == old(encryption) && Defaults() == old(Defaults())
    {
      autoResetPending := false;
      if !session.formVisible && Truthy(session.qrUrl) {
        autoResetPending := true;
      }
    }

    /** The auto-reset timer fires: the QR state is cleared, the form returns to its defaults, the encryption is cleared. */
    method FireAutoReset()
      requires autoResetPending
      modifies this, session
      ensures (customTitle, ssid, password) == old(Defaults()) && Defaults() == old(Defaults())
      ensures encryption.None? && !autoResetPending
      ensures session.State() == BLANK && session.stored.None?
    {
      session.ResetQR();
      ResetForm();
      encryption := None;
      autoResetPending := false;
    }
  }

  /** Without a generated password, "generate new" empties the form. */
  method GenerateNewClearsTypedForm(title: string, network: string, pwd: string)
    returns (cleared: (string, string, string))
    ensures cleared == ("", "", "")
  {
    var session := new GlobalProvider(None);
    var page := new MainPage(session);
    page.EditForm(title, network, pwd);
    page.HandleGenerateNew();
    cleared := (page.customTitle, page.ssid, page.password);
  }

  /** After a generated password, "generate new" restores the title, network name and password of that moment. */
  method GeneratedPasswordSurvivesGenerateNew(title: string, network: string)
    returns (afterReset: (string, string, string))
    ensures afterReset.0 == title && afterReset.1 == network
    ensures |afterReset.2| == PASSWORD_LENGTH
  {
    var session := new GlobalProvider(None);
    var page := new MainPage(session);
    page.EditForm(title, network, "");
    page.SelectEncryption(WPA);
    page.GenerateRandomPassword();
    page.EditForm("", "", "");
    page.HandleGenerateNew();
    afterReset := (page.customTitle, page.ssid, page.password);
  }

  /** Showing the form again cancels the auto-reset: the effect's re-run disarms the timer. */
  method ShowingFormCancelsAutoReset(user: User, url: string, title: string)
    returns (armed: bool, afterShow: bool)
    requires IsConfirmed(Some(user)) && url != ""
    ensures armed && !afterShow
  {
    var session := new GlobalProvider(None);
    var page := new MainPage(session);
    var _ := session.SaveQR(Some(user), url, title, "", "nopass");
    page.AutoResetEffect();
    armed := page.autoResetPending;
    session.SetFormVisible(true);
    page.AutoResetEffect();
    afterShow := page.autoResetPending;
  }
}
