/** The host's global option table as the plugin uses it: the four settings it seeds on
    activation and removes on uninstall, and the two helpers that render a setting. */
module Options {

  import opened PhpStrings

  /** A stored option value; `get_option` yields `BoolVal(false)` for a missing key. */
  datatype OptionValue = IntVal(i: int) | StrVal(s: string) | BoolVal(b: bool)

  type OptionTable = map<string, OptionValue>

  /** PHP's `empty()` on an option value. */
  predicate Empty(v: OptionValue)
    ensures Empty(v) <==> v in {IntVal(0), StrVal(""), StrVal("0"), BoolVal(false)}
  {
    match v
    case IntVal(i) => i == 0
    case StrVal(s) => EmptyString(s)
    case BoolVal(b) => !b
  }

  const EnforceAdminKey: string := "_enforce_admin_pw_change"
  const AllowWeakAdminKey: string := "_allow_weak_admin_pw"
  const AllowWeakUserKey: string := "_allow_weak_user_pw"
  const RedirectLinkKey: string := "_custom_pw_redirect_link"

  /** The settings the plugin owns, with the values activation seeds. */
  const Defaults: map<string, OptionValue> := map[
    EnforceAdminKey := IntVal(1),
    AllowWeakAdminKey := IntVal(0),
    AllowWeakUserKey := IntVal(1),
    RedirectLinkKey := StrVal("")
  ]

  const PluginKeys: set<string> := {EnforceAdminKey, AllowWeakAdminKey, AllowWeakUserKey, RedirectLinkKey}

  /** `get_option` with its default: a missing key reads as `false`. */
  function GetOption(table: OptionTable, name: string): (v: OptionValue)
    ensures name !in table ==> Empty(v)
    ensures name in table ==> v == table[name]
  {
    if name in table then table[name] else BoolVal(false)
  }

  /** `add_option`: stores the value only when the key is not present yet. */
  function Added(table: OptionTable, name: string, value: OptionValue): (r: OptionTable)
    ensures r.Keys == table.Keys + {name}
    ensures forall k :: k in table ==> r[k] == table[k]
    ensures name !in table ==> r[name] == value
  {
    if name in table then table else table[name := value]
  }

  /** `delete_option`: removes the key, if present, and nothing else. */
  function Deleted(table: OptionTable, name: string): (r: OptionTable)
    ensures r.Keys == table.Keys - {name}
    ensures forall k :: k in r ==> r[k] == table[k]
  {
    table - {name}
  }

  /** The table after `activate_plugin`: the four settings are added, defaults only where absent. */
  function Activated(table: OptionTable): (r: OptionTable)
    ensures r.Keys == table.Keys + PluginKeys
    ensures forall k :: k in table ==> r[k] == table[k]
    ensures EnforceAdminKey !in table ==> r[EnforceAdminKey] == IntVal(1)
    ensures AllowWeakAdminKey !in table ==> r[AllowWeakAdminKey] == IntVal(0)
    ensures AllowWeakUserKey !in table ==> r[AllowWeakUserKey] == IntVal(1)
    ensures RedirectLinkKey !in table ==> r[RedirectLinkKey] == StrVal("")
  {
    var t1 := Added(table, EnforceAdminKey, IntVal(1));
    var t2 := Added(t1, AllowWeakAdminKey, IntVal(0));
    var t3 := Added(t2, AllowWeakUserKey, IntVal(1));
    var r := Added(t3, RedirectLinkKey, StrVal(""));
    assert r.Keys == table.Keys + PluginKeys by {
      assert r.Keys == table.Keys + {EnforceAdminKey, AllowWeakAdminKey, AllowWeakUserKey, RedirectLinkKey};
    }
    assert EnforceAdminKey !in table ==> r[EnforceAdminKey] == IntVal(1) by {
      KeysDistinct();
    }
    assert AllowWeakAdminKey !in table ==> r[AllowWeakAdminKey] == IntVal(0) by {
      KeysDistinct();
    }
    assert AllowWeakUserKey !in table ==> r[AllowWeakUserKey] == IntVal(1) by {
      KeysDistinct();
    }
    r
  }

  /** The four setting names are pairwise different. */
  lemma KeysDistinct()
    ensures EnforceAdminKey != AllowWeakAdminKey && EnforceAdminKey != AllowWeakUserKey
    ensures EnforceAdminKey != RedirectLinkKey && AllowWeakAdminKey != AllowWeakUserKey
    ensures AllowWeakAdminKey != RedirectLinkKey && AllowWeakUserKey != RedirectLinkKey
  {
    assert EnforceAdminKey[1] == 'e' && AllowWeakAdminKey[1] == 'a';
    assert AllowWeakUserKey[1] == 'a' && RedirectLinkKey[1] == 'c';
    assert AllowWeakAdminKey[12] == 'a' && AllowWeakUserKey[12] == 'u';
  }

  /** The table after `delete_plugin`: exactly the four settings are gone. */
  function Removed(table: OptionTable): (r: OptionTable)
    ensures r.Keys == table.Keys - PluginKeys
    ensures forall k :: k in r ==> r[k] == table[k]
  {
    var t1 := Deleted(table, EnforceAdminKey);
    var t2 := Deleted(t1, AllowWeakAdminKey);
    var t3 := Deleted(t2, AllowWeakUserKey);
    Deleted(t3, RedirectLinkKey)
  }

  /** Activating twice is the same as activating once. */
  lemma ActivateIdempotent(table: OptionTable)
    ensures Activated(Activated(table)) == Activated(table)
  {
  }

  /** Uninstalling leaves no trace of an earlier activation. */
  lemma UninstallForgetsActivation(table: OptionTable)
    ensures Removed(Activated(table)) == Removed(table)
  {
    RemovedIgnoresPluginKeys(Activated(table), table);
  }

  /** What `delete_plugin` leaves depends only on the entries other than the four settings. */
  lemma RemovedIgnoresPluginKeys(a: OptionTable, b: OptionTable)
    requires a.Keys - PluginKeys == b.Keys - PluginKeys
    requires forall k :: k in a && k in b && k !in PluginKeys ==> a[k] == b[k]
    ensures Removed(a) == Removed(b)
  {
    var ra, rb := Removed(a), Removed(b);
    assert ra.Keys == rb.Keys;
    forall k | k in ra
      ensures ra[k] == rb[k]
    {
      assert k in a && k in b && k !in PluginKeys;
    }
  }

  /** Activating after an uninstall yields the defaults, whatever was configured before. */
  lemma ReinstallRestoresDefaults(table: OptionTable)
    ensures forall k :: k in Defaults ==> Activated(Removed(table))[k] == Defaults[k]
  {
    var r := Activated(Removed(table));
    forall k | k in Defaults
      ensures r[k] == Defaults[k]
    {
      assert k == EnforceAdminKey || k == AllowWeakAdminKey || k == AllowWeakUserKey || k == RedirectLinkKey;
    }
  }

  const CheckedAttribute: string := "checked"
  const HiddenStyle: string := "style=\"display:none;\""

  /** `set_option_status`: the checkbox attribute for a setting. */
  function SetOptionStatus(table: OptionTable, name: string): (r: string)
    ensures r == CheckedAttribute <==> name in table && !Empty(table[name])
    ensures r == "" || r == CheckedAttribute
  {
    if Empty(GetOption(table, name)) then "" else CheckedAttribute
  }

  /** `set_element_visibility`: the style attribute of the row a setting controls. */
  function SetElementVisibility(table: OptionTable, name: string): (r: string)
    ensures r == "" <==> name in table && !Empty(table[name])
    ensures r == "" || r == HiddenStyle
  {
    if Empty(GetOption(table, name)) then HiddenStyle else ""
  }

  /** A setting's checkbox is ticked exactly when the row it controls is shown. */
  lemma CheckedIffVisible(table: OptionTable, name: string)
    ensures SetOptionStatus(table, name) == CheckedAttribute <==> SetElementVisibility(table, name) == ""
  {
  }

  /** On a site that never had the plugin, the settings page after activation shows
      enforcement ticked, weak admin passwords unticked, weak user passwords ticked,
      and the custom-URL row hidden. */
  lemma FreshInstallRendering(table: OptionTable)
    requires table.Keys !! PluginKeys
    ensures SetOptionStatus(Activated(table), EnforceAdminKey) == CheckedAttribute
    ensures SetElementVisibility(Activated(table), EnforceAdminKey) == ""
    ensures SetOptionStatus(Activated(table), AllowWeakAdminKey) == ""
    ensures SetOptionStatus(Activated(table), AllowWeakUserKey) == CheckedAttribute
    ensures SetElementVisibility(Activated(table), RedirectLinkKey) == HiddenStyle
  {
    var r := Activated(table);
    assert r[EnforceAdminKey] == IntVal(1);
    assert r[AllowWeakAdminKey] == IntVal(0);
    assert r[AllowWeakUserKey] == IntVal(1);
    assert r[RedirectLinkKey] == StrVal("");
  }

  /** After an uninstall every setting renders as unticked and every row it controls as hidden. */
  lemma UninstalledRendering(table: OptionTable, name: string)
    requires name in PluginKeys
    ensures SetOptionStatus(Removed(table), name) == ""
    ensures SetElementVisibility(Removed(table), name) == HiddenStyle
  {
  }
}
