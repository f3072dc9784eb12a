/**
 * The graphics device and the objects it creates (buffers, bind groups,
 * layouts, shader modules, pipelines) are opaque here: a created object is
 * represented by the device that created it and the label of its descriptor.
 */
module Gpu {

  datatype Device = Device(id: nat)

  datatype Handle = Handle(device: Device, descriptor: string)

  /** The object a device creates from a descriptor with the given label text. */
  function Create(device: Device, descriptor: string): (h: Handle)
    ensures h.device == device && h.descriptor == descriptor
  {
    Handle(device, descriptor)
  }
}
