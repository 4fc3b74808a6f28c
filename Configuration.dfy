/** The compiled-in default settings of the configuration service. */
module Configuration {
  import opened Models

  /** The settings used at first run and whenever none can be loaded. */
  function GetDefaultConfiguration(): (c: AppConfiguration)
    ensures c.sequences == []
    ensures c.keybindings.Keys == {"record", "start", "stop", "clear"}
    ensures c.keybindings["record"] == "[" && c.keybindings["start"] == "]"
    ensures c.keybindings["stop"] == "\\" && c.keybindings["clear"] == "Delete"
    ensures c.timeOffset == 0 && c.defaultDelayMs == 50
  {
    AppConfiguration(
      sequences := [],
      keybindings := map["record" := "[", "start" := "]", "stop" := "\\", "clear" := "Delete"],
      timeOffset := 0,
      defaultDelayMs := 50)
  }

  /** No two actions share a key in the defaults, so every key press selects one action. */
  lemma DefaultKeybindingsDistinct()
    ensures var k := GetDefaultConfiguration().keybindings;
      forall a, b :: a in k && b in k && a != b ==> k[a] != k[b]
    ensures |GetDefaultConfiguration().keybindings.Values| == 4
  {
    var k := GetDefaultConfiguration().keybindings;
    assert k.Values == {"[", "]", "\\", "Delete"};
  }
}
