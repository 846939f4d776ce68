/** The devices and tracking systems the VR runtime enumerates (src/overlay/VRState.h).
    Only the plain data is modelled; how `VRState::Load` and `FindDevice` query the
    runtime is not part of this model. */
module VRState {

  /** The OpenVR tracked-device class of a device. */
  datatype DeviceClass = InvalidClass | HMD | Controller | GenericTracker | TrackingReference | DisplayRedirect

  /** The OpenVR controller role of a device. */
  datatype ControllerRole = InvalidRole | LeftHand | RightHand | OptOut | Treadmill | Stylus

  /** One enumerated device: its runtime id, what kind of device it is, and the
      (tracking system, model, serial) identity it reports. */
  datatype VRDevice = VRDevice(
    id: int,
    deviceClass: DeviceClass,
    model: string,
    serial: string,
    trackingSystem: string,
    controllerRole: ControllerRole)

  /** A snapshot of the runtime: the tracking-system names and the devices. */
  datatype VRState = VRState(trackingSystems: seq<string>, devices: seq<VRDevice>)
}
