/** The settings screen (app/profile/settings.tsx): sections of settings,
    some of them switches. `handleToggle` copies the array of sections
    (the sections themselves and their settings are shared with the old
    array) and then flips the switch by assigning to the setting object in
    place; so each setting is a `Setting` object with a mutable `value`. */
module Settings {
  import opened Wrappers

  /** `type: "toggle" | "button" | "info"`. */
  datatype Kind = Toggle | Button | Info

  class Setting {
    const id: string
    const title: string
    const kind: Kind
    var value: Option<bool>
    const info: Option<string>

    constructor (id: string, title: string, kind: Kind, value: Option<bool>, info: Option<string>)
      ensures this.id == id && this.title == title && this.kind == kind
      ensures this.value == value && this.info == info
    {
      this.id, this.title, this.kind, this.value, this.info := id, title, kind, value, info;
    }
  }

  datatype Section = Section(title: string, settings: seq<Setting>)

  /** The value a setting of kind `kind` holds after `handleToggle`: a
      switch with a defined value is negated; any other setting keeps its
      value. */
  function Toggled(kind: Kind, value: Option<bool>): (r: Option<bool>)
    ensures kind == Toggle && value.Some? ==> r == Some(!value.value)
    ensures !(kind == Toggle && value.Some?) ==> r == value
  {
    if kind == Toggle && value.Some? then Some(!value.value) else value
  }

  /** Toggling the same setting twice gives back its value, and a toggle
      changes a value exactly when the setting is a switch with a value. */
  lemma ToggledTwice(kind: Kind, value: Option<bool>)
    ensures Toggled(kind, Toggled(kind, value)) == value
    ensures Toggled(kind, value) != value <==> kind == Toggle && value.Some?
  {
  }

  class SettingsScreen {
    var sections: seq<Section>

    /** `(s, i)` names a setting. */
    ghost predicate At(s: int, i: int)
      reads this
    {
      0 <= s < |sections| && 0 <= i < |sections[s].settings|
    }

    /** `handleToggle(sectionIndex, settingIndex)`: negate the value of a
        switch that has one; anything else is left alone. The structure
        (sections, their order, their settings) is the same afterwards,
        and no other setting's value changes. */
    method HandleToggle(s: int, i: int)
      requires At(s, i)
      modifies this, sections[s].settings[i]
      ensures sections == old(sections)
      ensures sections[s].settings[i].value == Toggled(sections[s].settings[i].kind, old(sections[s].settings[i].value))
      ensures forall t, j :: At(t, j) && sections[t].settings[j] != sections[s].settings[i] ==>
                sections[t].settings[j].value == old(sections[t].settings[j].value)
    {
      var copy := sections;
      var setting := copy[s].settings[i];
      if setting.kind == Toggle && setting.value.Some? {
        copy[s].settings[i].value := Some(!setting.value.value);
        sections := copy;
      }
    }

    /** The sections the screen opens with. */
    constructor ()
      ensures |sections| == 4
      ensures sections[0].title == "알림 설정" && sections[1].title == "앱 설정"
      ensures sections[2].title == "계정" && sections[3].title == "기타"
      ensures SwitchesSet(sections[0]) && SwitchesSet(sections[1])
      ensures SwitchesSet(sections[2]) && SwitchesSet(sections[3])
      ensures |sections[0].settings| == 4 && |sections[1].settings| == 3
      ensures |sections[2].settings| == 3 && |sections[3].settings| == 4
      ensures Named(sections[0].settings[0], "push_notifications", "푸시 알림") && Describes(sections[0].settings[0], Toggle, Some(true), None)
      ensures Named(sections[0].settings[1], "recipe_updates", "레시피 업데이트") && Describes(sections[0].settings[1], Toggle, Some(true), None)
      ensures Named(sections[0].settings[2], "journal_reminders", "양조일지 알림") && Describes(sections[0].settings[2], Toggle, Some(true), None)
      ensures Named(sections[0].settings[3], "tasting_invites", "시음회 초대") && Describes(sections[0].settings[3], Toggle, Some(true), None)
      ensures Named(sections[1].settings[0], "dark_mode", "다크 모드") && Describes(sections[1].settings[0], Toggle, Some(false), None)
      ensures Named(sections[1].settings[1], "auto_save", "자동 저장") && Describes(sections[1].settings[1], Toggle, Some(true), None)
      ensures Named(sections[1].settings[2], "language", "언어") && Describes(sections[1].settings[2], Info, None, Some("한국어"))
      ensures Named(sections[2].settings[0], "edit_profile", "프로필 편집") && Describes(sections[2].settings[0], Button, None, None)
      ensures Named(sections[2].settings[1], "password", "비밀번호 변경") && Describes(sections[2].settings[1], Button, None, None)
      ensures Named(sections[2].settings[2], "delete_account", "계정 삭제") && Describes(sections[2].settings[2], Button, None, None)
      ensures Named(sections[3].settings[0], "privacy_policy", "개인정보 처리방침") && Describes(sections[3].settings[0], Button, None, None)
      ensures Named(sections[3].settings[1], "terms", "이용약관") && Describes(sections[3].settings[1], Button, None, None)
      ensures Named(sections[3].settings[2], "contact", "문의하기") && Describes(sections[3].settings[2], Button, None, None)
      ensures Named(sections[3].settings[3], "app_version", "앱 버전") && Describes(sections[3].settings[3], Info, None, Some("1.0.0"))
    {
      var notifications := NotificationSection();
      var app := AppSection();
      var account := AccountSection();
      var other := OtherSection();
      sections := [notifications, app, account, other];
    }
  }

  /** Every switch of the section has a value. */
  ghost predicate SwitchesSet(section: Section)
    reads section.settings
  {
    forall i :: 0 <= i < |section.settings| && section.settings[i].kind == Toggle ==>
      section.settings[i].value.Some?
  }

  /** The setting object `st` carries this id and title. */
  predicate Named(st: Setting, id: string, title: string)
  {
    st.id == id && st.title == title
  }

  /** The setting object `st` is of this kind and holds this value and
      info text. */
  ghost predicate Describes(st: Setting, kind: Kind, value: Option<bool>, info: Option<string>)
    reads st
  {
    st.kind == kind && st.value == value && st.info == info
  }

  /** "알림 설정": four switches, all on. */
  method NotificationSection() returns (section: Section)
    ensures section.title == "알림 설정" && |section.settings| == 4 && SwitchesSet(section)
    ensures Named(section.settings[0], "push_notifications", "푸시 알림") && Describes(section.settings[0], Toggle, Some(true), None)
    ensures Named(section.settings[1], "recipe_updates", "레시피 업데이트") && Describes(section.settings[1], Toggle, Some(true), None)
    ensures Named(section.settings[2], "journal_reminders", "양조일지 알림") && Describes(section.settings[2], Toggle, Some(true), None)
    ensures Named(section.settings[3], "tasting_invites", "시음회 초대") && Describes(section.settings[3], Toggle, Some(true), None)
  {
    var push := new Setting("push_notifications", "푸시 알림", Toggle, Some(true), None);
    var updates := new Setting("recipe_updates", "레시피 업데이트", Toggle, Some(true), None);
    var reminders := new Setting("journal_reminders", "양조일지 알림", Toggle, Some(true), None);
    var invites := new Setting("tasting_invites", "시음회 초대", Toggle, Some(true), None);
    section := Section("알림 설정", [push, updates, reminders, invites]);
  }

  /** "앱 설정": dark mode off, auto-save on, and the language shown. */
  method AppSection() returns (section: Section)
    ensures section.title == "앱 설정" && |section.settings| == 3 && SwitchesSet(section)
    ensures Named(section.settings[0], "dark_mode", "다크 모드") && Describes(section.settings[0], Toggle, Some(false), None)
    ensures Named(section.settings[1], "auto_save", "자동 저장") && Describes(section.settings[1], Toggle, Some(true), None)
    ensures Named(section.settings[2], "language", "언어") && Describes(section.settings[2], Info, None, Some("한국어"))
  {
    var dark := new Setting("dark_mode", "다크 모드", Toggle, Some(false), None);
    var autoSave := new Setting("auto_save", "자동 저장", Toggle, Some(true), None);
    var language := new Setting("language", "언어", Info, None, Some("한국어"));
    section := Section("앱 설정", [dark, autoSave, language]);
  }

  /** "계정": three buttons. */
  method AccountSection() returns (section: Section)
    ensures section.title == "계정" && |section.settings| == 3 && SwitchesSet(section)
    ensures Named(section.settings[0], "edit_profile", "프로필 편집") && Describes(section.settings[0], Button, None, None)
    ensures Named(section.settings[1], "password", "비밀번호 변경") && Describes(section.settings[1], Button, None, None)
    ensures Named(section.settings[2], "delete_account", "계정 삭제") && Describes(section.settings[2], Button, None, None)
  {
    var profile := new Setting("edit_profile", "프로필 편집", Button, None, None);
    var password := new Setting("password", "비밀번호 변경", Button, None, None);
    var delete := new Setting("delete_account", "계정 삭제", Button, None, None);
    section := Section("계정", [profile, password, delete]);
  }

  /** "기타": three buttons and the app version. */
  method OtherSection() returns (section: Section)
    ensures section.title == "기타" && |section.settings| == 4 && SwitchesSet(section)
    ensures Named(section.settings[0], "privacy_policy", "개인정보 처리방침") && Describes(section.settings[0], Button, None, None)
    ensures Named(section.settings[1], "terms", "이용약관") && Describes(section.settings[1], Button, None, None)
    ensures Named(section.settings[2], "contact", "문의하기") && Describes(section.settings[2], Button, None, None)
    ensures Named(section.settings[3], "app_version", "앱 버전") && Describes(section.settings[3], Info, None, Some("1.0.0"))
  {
    var privacy := new Setting("privacy_policy", "개인정보 처리방침", Button, None, None);
    var terms := new Setting("terms", "이용약관", Button, None, None);
    var contact := new Setting("contact", "문의하기", Button, None, None);
    var version := new Setting("app_version", "앱 버전", Info, None, Some("1.0.0"));
    section := Section("기타", [privacy, terms, contact, version]);
  }
}
