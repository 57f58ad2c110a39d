/** What the packages' plugins have in common. */
module Plugins {

  // Every package registers under its configured name or, without one, under this.
  function PluginName(name: string): string {
    if name == "" then "polarismesh" else name
  }
}
