/** Types shared with the BLE stack that the relay service plugs into:
    fixed-width integers, status codes, and the part of a GATT attribute
    that the service's callbacks inspect. */
module BleTypes {

  /** uint8_t */
  type Byte = x: int | 0 <= x < 0x100

  /** uint16_t */
  type Uint16 = x: int | 0 <= x < 0x1_0000

  datatype Option<+T> = None | Some(value: T)

  /** Assigned 16-bit UUID of the Client Characteristic Configuration
      descriptor (Bluetooth Assigned Numbers; GATT_CLIENT_CHAR_CFG_UUID). */
  const GATT_CLIENT_CHAR_CFG_UUID: Uint16 := 0x2902

  /** The bStatus_t values the relay service produces or passes through.
      Stack calls whose internals are not modelled may report any status,
      so `Other` stands for every code not named here. */
  datatype Status =
    | Success                   // SUCCESS
    | InvalidParameter          // INVALIDPARAMETER
    | BleMemAllocError          // bleMemAllocError
    | BleInvalidRange           // bleInvalidRange
    | AttErrInvalidHandle       // ATT_ERR_INVALID_HANDLE
    | AttErrInsufficientAuthor  // ATT_ERR_INSUFFICIENT_AUTHOR
    | AttErrAttrNotFound        // ATT_ERR_ATTR_NOT_FOUND
    | AttErrAttrNotLong         // ATT_ERR_ATTR_NOT_LONG
    | AttErrInvalidValueSize    // ATT_ERR_INVALID_VALUE_SIZE
    | Other(code: Byte)

  /** What the callbacks learn from a gattAttribute_t: the outcome of
      utilExtractUuid16 (None when extraction fails) and whether its
      permissions demand authorization to write (gattPermitAuthorWrite). */
  datatype Attribute = Attribute(uuid16: Option<Uint16>, authorWrite: bool)
}
