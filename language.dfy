/**
 * The translation lookup of the language provider: the current language's
 * string for a key, or the key itself when that language has none.
 */
module Language {
  import opened Wrappers

  datatype Language = En | Hi

  /** The language a provider starts with. */
  const InitialLanguage: Language := En

  /** The English table: the text it lists for a key, if any. Sections are searched in source order. */
  function English(key: string): (text: Option<string>)
    ensures text.Some? ==> text.value != ""
  {
    match key
    case "nav.dashboard" => Some("Dashboard")
    case "nav.alerts" => Some("Alerts")
    case "nav.analytics" => Some("Analytics")
    case "nav.prediction" => Some("AI Prediction")
    case "nav.settings" => Some("Settings")
    case _ => EnglishDashboard(key)
  }

  /** The English table, from its dashboard section on: the text it lists for a key, if any. */
  function EnglishDashboard(key: string): (text: Option<string>)
    ensures text.Some? ==> text.value != ""
  {
    match key
    case "dashboard.title" => Some("GrainGuard Dashboard")
    case "dashboard.subtitle" => Some("Real-time monitoring of grain storage conditions")
    case "dashboard.bluetooth.connected" => Some("Bluetooth Connected")
    case "dashboard.sensors.title" => Some("Sensor Readings")
    case "dashboard.status.overview" => Some("Status Overview")
    case "dashboard.status.all_systems" => Some("All systems operational")
    case "dashboard.status.check_alerts" => Some("Check alerts for details")
    case "dashboard.last_updated" => Some("Last updated")
    case _ => EnglishSensors(key)
  }

  /** The English table, from its sensors section on: the text it lists for a key, if any. */
  function EnglishSensors(key: string): (text: Option<string>)
    ensures text.Some? ==> text.value != ""
  {
    match key
    case "sensor.temperature" => Some("Temperature")
    case "sensor.humidity" => Some("Humidity")
    case "sensor.gas" => Some("Gas Level")
    case "sensor.vibration" => Some("Vibration")
    case "sensor.status.safe" => Some("🟢 Safe")
    case "sensor.status.warning" => Some("🟡 Warning")
    case "sensor.status.danger" => Some("🔴 Danger")
    case "sensor.temp.optimal" => Some("Optimal range")
    case "sensor.temp.high" => Some("Above threshold")
    case "sensor.humidity.optimal" => Some("Optimal range")
    case "sensor.humidity.high" => Some("Above threshold")
    case "sensor.gas.normal" => Some("Normal levels")
    case "sensor.gas.elevated" => Some("Elevated levels detected")
    case "sensor.vibration.stable" => Some("Stable")
    case "sensor.vibration.detected" => Some("Activity detected")
    case _ => EnglishAlerts(key)
  }

  /** The English table, from its alerts section on: the text it lists for a key, if any. */
  function EnglishAlerts(key: string): (text: Option<string>)
    ensures text.Some? ==> text.value != ""
  {
    match key
    case "alerts.title" => Some("Alerts")
    case "alerts.subtitle" => Some("Recent notifications and warnings")
    case "alerts.no_alerts" => Some("No alerts at the moment")
    case "alerts.type.info" => Some("Info")
    case "alerts.type.warning" => Some("Warning")
    case "alerts.type.danger" => Some("Danger")
    case "alerts.type.prediction" => Some("AI Prediction")
    case _ => EnglishAnalytics(key)
  }

  /** The English table, from its analytics section on: the text it lists for a key, if any. */
  function EnglishAnalytics(key: string): (text: Option<string>)
    ensures text.Some? ==> text.value != ""
  {
    match key
    case "analytics.title" => Some("Analytics")
    case "analytics.subtitle" => Some("Historical data and trends")
    case "analytics.temp_humidity" => Some("Temperature & Humidity")
    case "analytics.temp_humidity.desc" => Some("Last 24 hours")
    case "analytics.gas" => Some("Gas Levels")
    case "analytics.gas.desc" => Some("Parts per million (ppm)")
    case "analytics.vibration" => Some("Vibration Activity")
    case "analytics.vibration.desc" => Some("Movement detection")
    case _ => EnglishPrediction(key)
  }

  /** The English table, from its prediction section on: the text it lists for a key, if any. */
  function EnglishPrediction(key: string): (text: Option<string>)
    ensures text.Some? ==> text.value != ""
  {
    match key
    case "prediction.title" => Some("AI-Driven Spoilage Risk Analysis")
    case "prediction.subtitle" => Some("Predictive analytics for grain quality")
    case "prediction.confidence" => Some("Confidence")
    case "prediction.risk" => Some("Risk Assessment")
    case "prediction.risk.low" => Some("Low Risk")
    case "prediction.risk.medium" => Some("Medium Risk")
    case "prediction.risk.high" => Some("High Risk")
    case "prediction.factors" => Some("Key Contributing Factors")
    case "prediction.actions" => Some("Recommended Actions")
    case "prediction.action.inspect" => Some("Inspect Storage")
    case "prediction.action.ventilate" => Some("Increase Ventilation")
    case "prediction.action.monitor" => Some("Monitor Closely")
    case _ => EnglishSettings(key)
  }

  /** The English table, from its settings section on: the text it lists for a key, if any. */
  function EnglishSettings(key: string): (text: Option<string>)
    ensures text.Some? ==> text.value != ""
  {
    match key
    case "settings.title" => Some("Settings")
    case "settings.subtitle" => Some("Configure thresholds and notifications")
    case "settings.thresholds" => Some("Safety Thresholds")
    case "settings.temp.max" => Some("Maximum Temperature (°C)")
    case "settings.temp.min" => Some("Minimum Temperature (°C)")
    case "settings.temp.alert" => Some("Alert when temperature exceeds this value")
    case "settings.humidity.max" => Some("Maximum Humidity (%)")
    case "settings.humidity.min" => Some("Minimum Humidity (%)")
    case "settings.gas.max" => Some("Maximum Gas Level (ppm)")
    case "settings.vibration.max" => Some("Maximum Vibration")
    case "settings.notifications" => Some("Notifications")
    case "settings.notifications.push" => Some("Push Notifications")
    case "settings.notifications.push.desc" => Some("Receive alerts on your device")
    case "settings.notifications.voice" => Some("Voice Alerts")
    case "settings.notifications.voice.desc" => Some("Enable audio notifications for critical alerts")
    case "settings.notifications.sms" => Some("SMS Notifications")
    case "settings.notifications.sms.desc" => Some("Send text messages for urgent alerts")
    case "settings.notifications.ai" => Some("AI Prediction Alerts")
    case "settings.notifications.ai.desc" => Some("Notify when AI detects spoilage risk")
    case "settings.connection" => Some("Connection")
    case "settings.connection.type" => Some("Connection Type")
    case "settings.language" => Some("Language")
    case "settings.language.select" => Some("Select Language")
    case "settings.save" => Some("Save Settings")
    case "settings.reset" => Some("Reset to Default")
    case _ => EnglishBluetooth(key)
  }

  /** The English table, from its bluetooth section on: the text it lists for a key, if any. */
  function EnglishBluetooth(key: string): (text: Option<string>)
    ensures text.Some? ==> text.value != ""
  {
    match key
    case "bluetooth.title" => Some("Bluetooth Sensor")
    case "bluetooth.scan" => Some("Scan for Sensors")
    case "bluetooth.disconnect" => Some("Disconnect")
    case "bluetooth.status.searching" => Some("Searching for sensors...")
    case "bluetooth.status.connected" => Some("Connected to")
    case "bluetooth.status.disconnected" => Some("Not connected")
    case "bluetooth.unsupported" => Some("Bluetooth not supported in this browser")
    case _ => None
  }
  /** The Hindi table: the text it lists for a key, if any. Sections are searched in source order. */
  function Hindi(key: string): (text: Option<string>)
    ensures text.Some? ==> text.value != ""
  {
    match key
    case "nav.dashboard" => Some("डैशबोर्ड")
    case "nav.alerts" => Some("चेतावनी")
    case "nav.analytics" => Some("विश्लेषण")
    case "nav.prediction" => Some("एआई पूर्वानुमान")
    case "nav.settings" => Some("सेटिंग्स")
    case _ => HindiDashboard(key)
  }

  /** The Hindi table, from its dashboard section on: the text it lists for a key, if any. */
  function HindiDashboard(key: string): (text: Option<string>)
    ensures text.Some? ==> text.value != ""
  {
    match key
    case "dashboard.title" => Some("ग्रेनगार्ड डैशबोर्ड")
    case "dashboard.subtitle" => Some("अनाज भंडारण स्थितियों की रीयल-टाइम निगरानी")
    case "dashboard.bluetooth.connected" => Some("ब्लूटूथ कनेक्टेड")
    case "dashboard.sensors.title" => Some("सेंसर रीडिंग")
    case "dashboard.status.overview" => Some("स्थिति अवलोकन")
    case "dashboard.status.all_systems" => Some("सभी सिस्टम सामान्य")
    case "dashboard.status.check_alerts" => Some("विवरण के लिए चेतावनी देखें")
    case "dashboard.last_updated" => Some("अंतिम अपडेट")
    case _ => HindiSensors(key)
  }

  /** The Hindi table, from its sensors section on: the text it lists for a key, if any. */
  function HindiSensors(key: string): (text: Option<string>)
    ensures text.Some? ==> text.value != ""
  {
    match key
    case "sensor.temperature" => Some("तापमान")
    case "sensor.humidity" => Some("आर्द्रता")
    case "sensor.gas" => Some("गैस स्तर")
    case "sensor.vibration" => Some("कंपन")
    case "sensor.status.safe" => Some("🟢 सुरक्षित")
    case "sensor.status.warning" => Some("🟡 चेतावनी")
    case "sensor.status.danger" => Some("🔴 खतरा")
    case "sensor.temp.optimal" => Some("इष्टतम सीमा")
    case "sensor.temp.high" => Some("सीमा से ऊपर")
    case "sensor.humidity.optimal" => Some("इष्टतम सीमा")
    case "sensor.humidity.high" => Some("सीमा से ऊपर")
    case "sensor.gas.normal" => Some("सामान्य स्तर")
    case "sensor.gas.elevated" => Some("उच्च स्तर का पता चला")
    case "sensor.vibration.stable" => Some("स्थिर")
    case "sensor.vibration.detected" => Some("गतिविधि का पता चला")
    case _ => HindiAlerts(key)
  }

  /** The Hindi table, from its alerts section on: the text it lists for a key, if any. */
  function HindiAlerts(key: string): (text: Option<string>)
    ensures text.Some? ==> text.value != ""
  {
    match key
    case "alerts.title" => Some("चेतावनी")
    case "alerts.subtitle" => Some("हाल की सूचनाएं और चेतावनियां")
    case "alerts.no_alerts" => Some("फिलहाल कोई चेतावनी नहीं")
    case "alerts.type.info" => Some("जानकारी")
    case "alerts.type.warning" => Some("चेतावनी")
    case "alerts.type.danger" => Some("खतरा")
    case "alerts.type.prediction" => Some("एआई पूर्वानुमान")
    case _ => HindiAnalytics(key)
  }

  /** The Hindi table, from its analytics section on: the text it lists for a key, if any. */
  function HindiAnalytics(key: string): (text: Option<string>)
    ensures text.Some? ==> text.value != ""
  {
    match key
    case "analytics.title" => Some("विश्लेषण")
    case "analytics.subtitle" => Some("ऐतिहासिक डेटा और रुझान")
    case "analytics.temp_humidity" => Some("तापमान और आर्द्रता")
    case "analytics.temp_humidity.desc" => Some("पिछले 24 घंटे")
    case "analytics.gas" => Some("गैस स्तर")
    case "analytics.gas.desc" => Some("पार्ट्स प्रति मिलियन (पीपीएम)")
    case "analytics.vibration" => Some("कंपन गतिविधि")
    case "analytics.vibration.desc" => Some("गति का पता लगाना")
    case _ => HindiPrediction(key)
  }

  /** The Hindi table, from its prediction section on: the text it lists for a key, if any. */
  function HindiPrediction(key: string): (text: Option<string>)
    ensures text.Some? ==> text.value != ""
  {
    match key
    case "prediction.title" => Some("एआई-संचालित खराब होने का जोखिम विश्लेषण")
    case "prediction.subtitle" => Some("अनाज गुणवत्ता के लिए पूर्वानुमानात्मक विश्लेषण")
    case "prediction.confidence" => Some("विश्वास")
    case "prediction.risk" => Some("जोखिम मूल्यांकन")
    case "prediction.risk.low" => Some("कम जोखिम")
    case "prediction.risk.medium" => Some("मध्यम जोखिम")
    case "prediction.risk.high" => Some("उच्च जोखिम")
    case "prediction.factors" => Some("मुख्य योगदान करने वाले कारक")
    case "prediction.actions" => Some("अनुशंसित कार्य")
    case "prediction.action.inspect" => Some("भंडारण की जांच करें")
    case "prediction.action.ventilate" => Some("वेंटिलेशन बढ़ाएं")
    case "prediction.action.monitor" => Some("बारीकी से निगरानी करें")
    case _ => HindiSettings(key)
  }

  /** The Hindi table, from its settings section on: the text it lists for a key, if any. */
  function HindiSettings(key: string): (text: Option<string>)
    ensures text.Some? ==> text.value != ""
  {
    match key
    case "settings.title" => Some("सेटिंग्स")
    case "settings.subtitle" => Some("सीमा और सूचनाएं कॉन्फ़िगर करें")
    case "settings.thresholds" => Some("सुरक्षा सीमा")
    case "settings.temp.max" => Some("अधिकतम तापमान (°C)")
    case "settings.temp.min" => Some("न्यूनतम तापमान (°C)")
    case "settings.temp.alert" => Some("जब तापमान इस मान से अधिक हो तो चेतावनी दें")
    case "settings.humidity.max" => Some("अधिकतम आर्द्रता (%)")
    case "settings.humidity.min" => Some("न्यूनतम आर्द्रता (%)")
    case "settings.gas.max" => Some("अधिकतम गैस स्तर (पीपीएम)")
    case "settings.vibration.max" => Some("अधिकतम कंपन")
    case "settings.notifications" => Some("सूचनाएं")
    case "settings.notifications.push" => Some("पुश सूचनाएं")
    case "settings.notifications.push.desc" => Some("अपने डिवाइस पर चेतावनी प्राप्त करें")
    case "settings.notifications.voice" => Some("वॉयस अलर्ट")
    case "settings.notifications.voice.desc" => Some("महत्वपूर्ण चेतावनियों के लिए ऑडियो सूचनाएं सक्षम करें")
    case "settings.notifications.sms" => Some("एसएमएस सूचनाएं")
    case "settings.notifications.sms.desc" => Some("तत्काल चेतावनियों के लिए टेक्स्ट संदेश भेजें")
    case "settings.notifications.ai" => Some("एआई पूर्वानुमान चेतावनी")
    case "settings.notifications.ai.desc" => Some("जब एआई खराब होने का जोखिम पता लगाए तो सूचित करें")
    case "settings.connection" => Some("कनेक्शन")
    case "settings.connection.type" => Some("कनेक्शन प्रकार")
    case "settings.language" => Some("भाषा")
    case "settings.language.select" => Some("भाषा चुनें")
    case "settings.save" => Some("सेटिंग्स सहेजें")
    case "settings.reset" => Some("डिफ़ॉल्ट पर रीसेट करें")
    case _ => HindiBluetooth(key)
  }

  /** The Hindi table, from its bluetooth section on: the text it lists for a key, if any. */
  function HindiBluetooth(key: string): (text: Option<string>)
    ensures text.Some? ==> text.value != ""
  {
    match key
    case "bluetooth.title" => Some("ब्लूटूथ सेंसर")
    case "bluetooth.scan" => Some("सेंसर स्कैन करें")
    case "bluetooth.disconnect" => Some("डिस्कनेक्ट करें")
    case "bluetooth.status.searching" => Some("सेंसर खोज रहे हैं...")
    case "bluetooth.status.connected" => Some("कनेक्टेड")
    case "bluetooth.status.disconnected" => Some("कनेक्टेड नहीं")
    case "bluetooth.unsupported" => Some("इस ब्राउज़र में ब्लूटूथ समर्थित नहीं है")
    case _ => None
  }

  /**
   * `translations[lang][key]` for the keys the tables list themselves. Every
   * listed text is non-empty, so the `|| key` fallback only ever applies to
   * keys a table does not list.
   */
  function Entry(lang: Language, key: string): (text: Option<string>)
    ensures text.Some? ==> text.value != ""
  {
    match lang
    case En => English(key)
    case Hi => Hindi(key)
  }

  /**
   * `translations[language][key] || key`: the table's text when it lists the
   * key, and the key itself otherwise.
   */
  function Translate(lang: Language, key: string): (r: string)
    ensures Entry(lang, key).Some? ==> r == Entry(lang, key).value
    ensures Entry(lang, key).None? ==> r == key
  {
    var text := Entry(lang, key);
    if text.Some? && text.value != "" then text.value else key
  }

  /** A key neither table lists comes back unchanged in either language. */
  lemma MissingKeyFallsBack(lang: Language)
    ensures Translate(lang, "voiceListening") == "voiceListening"
  {
    assert English("voiceListening").None?;
    assert Hindi("voiceListening").None?;
  }

  /** A listed key gets the current language's text. */
  lemma ListedKeyTranslates()
    ensures Translate(En, "settings.save") == "Save Settings"
    ensures Translate(Hi, "settings.save") == "सेटिंग्स सहेजें"
  {
    assert English("settings.save") == Some("Save Settings");
    assert Hindi("settings.save") == Some("सेटिंग्स सहेजें");
  }

  /** The provider's state: the selected language, replaced by `setLanguage`. */
  class LanguageProvider {
    var language: Language

    constructor ()
      ensures language == InitialLanguage
    {
      language := InitialLanguage;
    }

    method SetLanguage(lang: Language)
      modifies this
      ensures language == lang
    {
      language := lang;
    }

    /** `t(key)` in the current language. */
    function T(key: string): (r: string)
      reads this
      ensures Entry(language, key).Some? ==> r == Entry(language, key).value
      ensures Entry(language, key).None? ==> r == key
    {
      Translate(language, key)
    }
  }
}
