/** The device-telemetry summary (src/app/api/get-device-info/get-device-info.ts:18-85):
    two responses from the video service become one summary, with a fixed fallback. The
    two fetches are inputs. */
module DeviceInfo {
  import opened Wrappers

  datatype ConnectionStatus = Connected | Disconnected

  /** `DeviceInfo`; a `device_id` absent from the body is `None`. Numbers are JavaScript
      numbers. */
  datatype DeviceHealth = DeviceHealth(
    cpuPercent: real, memoryPercent: real, diskPercent: real, uptimeSeconds: real,
    deviceId: Option<string>)

  /** `BatteryInfo` */
  datatype BatteryInfo = BatteryInfo(
    chargeLevel: string, temperature: string, voltage: string, current: string,
    chargingStatus: string, energyConsumption: string, remainingBatteryTime: string)

  /** How one `fetch` turned out: rejected, or a response with its `ok` flag and its body's
      `data.health_check_info` / `data.battery_info` member (`None` when the body is not
      JSON or that member is missing, either of which makes the code throw). */
  datatype Fetched<T> = NetworkError | Response(ok: bool, payload: Option<T>)

  /** `GetDeviceInfoResponse` */
  datatype Summary = Summary(
    connectionStatus: ConnectionStatus, batteryLevel: string, cpuPercent: real,
    uptimeSeconds: real, batteryTemperature: string, batteryChargingStatus: string)

  /** The payload returned both when a response is not ok (:49-56) and when anything
      throws (:76-83). */
  const Fallback: Summary := Summary(Disconnected, "0", 0.0, 0.0, "0", "unknown")

  /** `Boolean(deviceInfo.device_id)` */
  predicate Truthy(id: Option<string>)
  {
    id.Some? && id.value != ""
  }

  /** Both fetches resolved ok and both bodies carry their member. */
  predicate Readable(device: Fetched<DeviceHealth>, battery: Fetched<BatteryInfo>)
  {
    && device.Response? && device.ok && device.payload.Some?
    && battery.Response? && battery.ok && battery.payload.Some?
  }

  /** `getDeviceInfo`: the fallback unless both responses are readable; otherwise the
      connection status says whether the device reported an id, and the other five fields
      are copied from the two bodies. */
  function GetDeviceInfo(device: Fetched<DeviceHealth>, battery: Fetched<BatteryInfo>): (r: Summary)
    ensures !Readable(device, battery) ==> r == Fallback
    ensures r.connectionStatus == Connected <==>
      Readable(device, battery) && Truthy(device.payload.value.deviceId)
    ensures Readable(device, battery) ==>
      var d, b := device.payload.value, battery.payload.value;
      && r.cpuPercent == d.cpuPercent && r.uptimeSeconds == d.uptimeSeconds
      && r.batteryTemperature == b.temperature
      && r.batteryChargingStatus == b.chargingStatus
      && r.batteryLevel == b.chargeLevel
  {
    if device.NetworkError? || battery.NetworkError? then Fallback      // Promise.all rejects
    else if !device.ok || !battery.ok then Fallback                     // :47-57
    else if device.payload.None? || battery.payload.None? then Fallback // json() or member access throws
    else
      var d, b := device.payload.value, battery.payload.value;
      Summary(
        if Truthy(d.deviceId) then Connected else Disconnected,
        b.chargeLevel, d.cpuPercent, d.uptimeSeconds, b.temperature, b.chargingStatus)
  }
}
