/** The error values the Vulkan layer returns, as far as the model needs them. */
module VulkanErrors {

  /**
   * What an `Unsupported` error reports.  The source formats this into the
   * error's message; the model keeps the facts the message is built from.
   */
  datatype Unmet =
    | QueueFamilies                          // no suitable graphics and present families
    | DeviceExtensions(missing: seq<string>) // the requested extensions the device lacks

  datatype VulkanError =
    | Vk(result: int)                   // a failed `vk::Result` passed on with `?`
    | Error(message: string)            // a failure given context with `.context(..)`
    | Unsupported(what: Unmet)
    | Shader(message: string)
}
