/**
 * Shapes of the serialisable settings records. A reference that the
 * settings file may leave null is an Option; records the core never
 * reads (serial, font map, widget settings) are not represented.
 */
module TemplateData {
  import opened Wrappers

  datatype Vector2 = Vector2(x: real, y: real)

  datatype SoundSetting = SoundSetting(key: string, clipPath: string, volume: real)

  datatype CloseSetting = CloseSetting(position: Vector2, numToClose: int, resetClickTime: real, imageAlpha: real)

  datatype Settings = Settings(
    inactivityTime: real,
    fadeTime: real,
    closeSetting: Option<CloseSetting>,
    sounds: Option<seq<SoundSetting>>)
}
