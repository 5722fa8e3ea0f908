/**
 * `NotificationPreferences` (src/components/settings/NotificationPreferences.tsx):
 * five notification switches, each toggled by id. Saving only raises a toast
 * and is not modelled.
 */
module NotificationPreferences {
  import opened Seqs

  datatype Setting = Setting(id: string, title: string, description: string, enabled: bool)

  /** The five settings the card starts with. */
  const InitialSettings: seq<Setting> := [
    Setting("order-updates", "Order Updates", "Receive notifications about your order status changes", true),
    Setting("billing-alerts", "Billing Alerts", "Get notified about payments and invoice updates", true),
    Setting("support-messages", "Support Messages", "Receive updates on your support tickets", true),
    Setting("product-updates", "Product Updates", "Stay informed about product changes and new features", false),
    Setting("promotional", "Promotional Emails", "Receive special offers and promotional updates", false)
  ]

  /** The switch shown for an id, if any. */
  function EnabledOf(settings: seq<Setting>, id: string): (r: bool)
    ensures r <==> exists i :: 0 <= i < |settings| && settings[i].id == id && settings[i].enabled
  {
    if settings == [] then false
    else if settings[0].id == id && settings[0].enabled then true
    else
      var rest := EnabledOf(settings[1..], id);
      assert rest ==> exists i :: 0 <= i < |settings| && settings[i].id == id && settings[i].enabled by {
        if rest {
          var i :| 0 <= i < |settings[1..]| && settings[1..][i].id == id && settings[1..][i].enabled;
          assert settings[i + 1] == settings[1..][i];
        }
      }
      rest
  }

  /** The first three are on, promotional and product updates are off. */
  lemma InitialSwitches()
    ensures EnabledOf(InitialSettings, "order-updates")
    ensures EnabledOf(InitialSettings, "billing-alerts")
    ensures EnabledOf(InitialSettings, "support-messages")
    ensures !EnabledOf(InitialSettings, "product-updates")
    ensures !EnabledOf(InitialSettings, "promotional")
  {
    var s := InitialSettings;
    assert s[0].enabled && s[1].enabled && s[2].enabled;
    assert |"product-updates"| != |s[0].id| && |"product-updates"| != |s[1].id| && |"product-updates"| != |s[2].id|;
    assert |"promotional"| != |s[0].id| && |"promotional"| != |s[1].id| && |"promotional"| != |s[2].id|;
    assert |"product-updates"| != |s[4].id|;
    assert |"promotional"| != |s[3].id|;
  }

  /**
   * `handleToggle(id)`: the settings with that id have their switch flipped;
   * ids, titles, descriptions, length and order never change.
   */
  function Toggle(settings: seq<Setting>, id: string): (r: seq<Setting>)
    ensures |r| == |settings|
    ensures forall i :: 0 <= i < |settings| ==>
              r[i].id == settings[i].id && r[i].title == settings[i].title && r[i].description == settings[i].description
    ensures forall i :: 0 <= i < |settings| && settings[i].id == id ==> r[i].enabled == !settings[i].enabled
    ensures forall i :: 0 <= i < |settings| && settings[i].id != id ==> r[i] == settings[i]
  {
    UpdateWhere(settings, (s: Setting) => s.id == id, (s: Setting) => s.(enabled := !s.enabled))
  }

  /** Toggling the same id twice restores the list. */
  lemma {:induction false} ToggleTwiceRestores(settings: seq<Setting>, id: string)
    ensures Toggle(Toggle(settings, id), id) == settings
  {
    var once := Toggle(settings, id);
    var twice := Toggle(once, id);
    forall i | 0 <= i < |settings| ensures twice[i] == settings[i] {
      if settings[i].id == id {
        assert once[i].id == id;
      }
    }
  }

  /** Toggles of different ids commute. */
  lemma {:induction false} TogglesCommute(settings: seq<Setting>, a: string, b: string)
    ensures Toggle(Toggle(settings, a), b) == Toggle(Toggle(settings, b), a)
  {
    var ab := Toggle(Toggle(settings, a), b);
    var ba := Toggle(Toggle(settings, b), a);
    forall i | 0 <= i < |settings| ensures ab[i] == ba[i] {
    }
  }

  /** The card's state. */
  class Preferences {
    var settings: seq<Setting>

    constructor ()
      ensures settings == InitialSettings
    {
      settings := InitialSettings;
    }

    method HandleToggle(id: string)
      modifies this
      ensures settings == Toggle(old(settings), id)
    {
      settings := Toggle(settings, id);
    }
  }
}
