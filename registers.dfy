/** The 16-bit register addresses of the VL53L1X that the drivers with 16-bit
    addressing use, and the constants they compare against. The Python,
    C and block-transfer drivers each declare the same values. */
module Registers {
  import opened Bits

  const SOFT_RESET: u16 := 0x0000
  const FIRMWARE_SYSTEM_STATUS: u16 := 0x0010
  const IDENTIFICATION_MODEL_ID: u16 := 0x010F

  const SYSTEM_INTERRUPT_CLEAR: u16 := 0x0086
  const SYSTEM_MODE_START: u16 := 0x0087

  const GPIO_TIO_HV_STATUS: u16 := 0x0031
  const RESULT_RANGE_STATUS: u16 := 0x0089
  /** RESULT_FINAL_CROSSTALK_CORRECTED_RANGE_MM_SD0: the 2-byte distance. */
  const RESULT_DISTANCE: u16 := 0x0096

  const RANGE_CONFIG_VCSEL_PERIOD_A: u16 := 0x0060
  const RANGE_CONFIG_VCSEL_PERIOD_B: u16 := 0x0063
  const RANGE_CONFIG_TIMEOUT_MACROP_A: u16 := 0x005E
  const RANGE_CONFIG_TIMEOUT_MACROP_B: u16 := 0x0061
  const RANGE_CONFIG_VALID_PHASE_HIGH: u16 := 0x0069
  const SYSTEM_INTERRUPT_CONFIG_GPIO: u16 := 0x0046

  const SD_CONFIG_WOI_SD0: u16 := 0x0078
  const SD_CONFIG_WOI_SD1: u16 := 0x007A
  const SD_CONFIG_INITIAL_PHASE_SD0: u16 := 0x007C
  const SD_CONFIG_INITIAL_PHASE_SD1: u16 := 0x007E

  /** The I2C fast-mode-plus pad register written first by the block-transfer driver. */
  const PAD_I2C_FAST_MODE_PLUS: u16 := 0x002D

  /** What IDENTIFICATION_MODEL_ID reads on a VL53L1X. */
  const MODEL_ID: u16 := 0xEACC

  /** Value written to SYSTEM_MODE_START to start ranging, and to stop it. */
  const MODE_RANGING: byte := 0x40
  const MODE_STOP: byte := 0x00

  /** The number of firmware-status reads before the drivers give up waiting. */
  const FIRMWARE_TRIES: nat := 100
}
