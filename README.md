# STM32F10x bit-banged peripherals, in Dafny

This project models the sequential logic of a set of STM32F103 firmware
examples and proves properties of it. The part that can be stated precisely
is small; most of the repository only fills vendor configuration records.
The modelled parts are:

- **Bit-banged I²C master and AT24C32 EEPROM transactions** (`I2C/I2C_software/main.c`).
  The master is a class whose methods append every pin write and every SDA
  read to a trace. What SDA reads back is an input stream.
  - `I2C_Write` is proved to send eight data bits MSB first, each with one SCL
    pulse, and then to sample the acknowledge bit.
  - `I2C_Read` is proved to assemble its eight samples MSB first and then to
    drive ACK or NOT_ACK.
  - A decoder turns the master's pin levels into the bus conditions of the
    NXP I²C-bus specification (UM10204), sections 3.1.3 to 3.1.6. It shows that
    `I2C_Start` and `I2C_Stop` are exactly one START and one STOP, and that
    data bits change only while SCL is low.
  - `at24c32_write` and `at24c32_read` are proved to send the device address,
    the high and low address bytes and the payload in that order. They stop
    with STOP and NOT_OK right after the first byte that is not acknowledged.
- **Bit-banged SPI master and slave** (`spi_sw_truyen/main.c`, `SPI/spi_sw_receive/main.c`).
  - The master's pin writes are proved to frame one byte: CS low, eight bits
    MSB first each followed by one clock pulse, then CS high.
  - The slave's busy-wait receiver reads a finite sequence of pin levels.
  - Connecting the two, the master's waveform is proved to reach the slave as
    the byte that was sent, provided every level lasts for a few reads of the
    slave.
- **UART receive interrupt** (`Interrupt/Uart_interrupt/main.c`). This is a
  bounded append into a ten-byte array, proved to keep the first ten bytes in
  arrival order.
- **CAN frame packing and unpacking, and the acceptance filter**
  (`CAN/CAN_TX/main.c`, `Bai13_CAN/CAN_RX/main.c`).
  - The copy loops are proved to fill exactly `Data[0..DLC)`.
  - Filter bank 0 is proved to admit the standard identifier 0x321 and no
    other 11-bit identifier.
  - CAN_TX sends one frame with identifier 0x123; CAN_RX defines the same
    sending routine but never calls it. The filter that CAN_RX configures
    rejects 0x123, so CAN_RX never receives CAN_TX's frame.
- **Servo PWM sweeps** (`RFID_PROJECT/servo.c`, `Module_Test/Servo_control/main.c`).
  Every value stored into `TIM2->CCR1` is proved to lie within the timer
  period of 1999. The sweeps are exactly 0, 20, …, 1980 and 1999, 1979, …, 19.
- **GPIO register manipulation** (`Blynk_led/main.c`). The read-modify-writes
  on `RCC->APB2ENR`, `GPIOC->CRH` and `GPIOC->ODR` are proved to change only
  their target bits.

Modules:

| file | module | contents |
|---|---|---|
| `bits.dfy` | `Wrappers`, `Bits` | `Option`; MSB-first bit order; shift-and-OR accumulation |
| `i2c_software.dfy` | `I2cSoftware` | wire images of the I²C routines; class `I2cBus` |
| `i2c_wire.dfy` | `I2cWire` | bus-condition decoder; the routines as seen on the bus |
| `spi_master.dfy` | `SpiMaster` | master pin writes; class `Master` |
| `spi_slave.dfy` | `SpiSlave` | receiver specification over pin reads; class `Slave` |
| `spi_link.dfy` | `SpiLink` | master waveform fed to the slave; round trip |
| `uart_interrupt.dfy` | `UartInterrupt` | class `Usart` and its interrupt handler |
| `can_frame.dfy` | `CanFrame` | frame record; filter bank 0 |
| `can_tx.dfy` | `CanTx` | `CAN_TransmitData`, `CAN_ReceiveData`, `main` of CAN_TX |
| `can_rx.dfy` | `CanRx` | class `Node`: FIFO0, `ID`, `TestArray` |
| `servo.dfy` | `Servo` | class `Tim2`; `PWM_Init`, `ServoOn`, `ServoOff` |
| `servo_control.dfy` | `ServoControl` | main loop of Servo_control |
| `blynk_led.dfy` | `BlynkLed` | class `Board`; `GPIO_Config`, blink loop, `delay` |

Inputs the programs cannot control are parameters of the model:

- the I²C SDA read stream (`line`);
- the SPI slave's pin reads (`pending`);
- the hold count of each master write (`hold`);
- the received UART byte (`dr`);
- the frames arriving at the CAN node.

Delays and vendor-library configuration calls are not modelled.

In `at24c32_read` the loop bound `u16Num - 1` is computed in `int`. A count
of 0 therefore still reads one byte, with NACK, into `pu8Data[0]`. The model
follows the code: `ReadCount(num)` is `max(num, 1)`.

## Model

| member | source | states |
|---|---|---|
| Bits.LevelValue | SPI/spi_sw_receive/main.c:63-65 | a sampled level becomes the value 0 or 1, whose bit 0 is that level |
| Bits.AccumulateSnoc | SPI/spi_sw_receive/main.c:64-65 | one more shift-and-OR step shifts the previous result up and puts the new level in bit 0 |
| Bits.ShiftInBit | SPI/spi_sw_receive/main.c:64-65 | bit k after one accumulation step is the new level for k = 0 and the old bit k-1 otherwise; old bit 7 falls off, so the result stays in 8 bits |
| Bits.AccumulateBit | I2C/I2C_software/main.c:121-127 | after accumulating up to 8 levels, the last level is bit 0, the first is bit n-1, and earlier contents move up by n |
| Bits.FromMsbFirstBit | SPI/spi_sw_receive/main.c:60-66 | of 8 assembled levels, level k lands in bit 7-k, so the first sampled bit is bit 7 |
| Bits.DecodeEncode | I2C/I2C_software/main.c:118-131 | assembling a byte's MSB-first wire image gives the byte back |
| Bits.EncodeDecode | I2C/I2C_software/main.c:85-97 | any 8 levels are the MSB-first wire image of the byte assembled from them |
| Bits.TopBitAfterShift | spi_sw_truyen/main.c:69-78 | testing `0x80` on a byte shifted left by i reads bit 7-i of the original |
| Bits.ShiftedIsShift | spi_sw_truyen/main.c:78 | after i passes of `u8Data <<= 1`, u8Data is the original shifted left by i |
| Bits.TopBitOfShifted | I2C/I2C_software/main.c:85-96 | the bit the mask tests on pass i is wire bit i, which is bit 7-i of the byte |
| I2cSoftware.ByteOutAt | I2C/I2C_software/main.c:85-97 | n bit clocks are 3n events; event k is part k%3 (SDA, SCL high, SCL low) of the clock for bit 7-k/3 |
| I2cSoftware.WriteEventsLayout | I2C/I2C_software/main.c:82-113 | I2C_Write is exactly eight data-bit clocks MSB first followed by the acknowledge clock |
| I2cSoftware.AssembledSamples | I2C/I2C_software/main.c:118-131 | u8Ret after n passes is the n sampled levels assembled MSB first |
| I2cSoftware.FrameLayout | I2C/I2C_software/main.c:179-190 | a write frame is the device address, then the memory address high byte then low byte (which rebuild the 16-bit address), then the payload |
| I2cSoftware.SendRest | I2C/I2C_software/main.c:191-196 | byte-by-byte sending writes at most the remaining bytes and reports OK only when it wrote all of them |
| I2cSoftware.SendRestAllAcked | I2C/I2C_software/main.c:191-199 | when every remaining byte is acknowledged, all of them are written in order and the result is OK |
| I2cSoftware.SendRestStopsAtNack | I2C/I2C_software/main.c:179-195 | on the first byte k not acknowledged, bytes up to k are written, then STOP, result NOT_OK, and no later byte |
| I2cSoftware.ReadCount | I2C/I2C_software/main.c:168-171 | at24c32_read clocks in u16Num bytes, and one byte when u16Num is 0 |
| I2cSoftware.I2cBus.Config | I2C/I2C_software/main.c:55-60 | I2C_Config releases SDA then SCL: the bus is idle with both lines high |
| I2cSoftware.I2cBus.DriveScl | I2C/I2C_software/main.c:12-13 | WRITE_SCL_x sets the SCL latch, records the write and touches nothing else |
| I2cSoftware.I2cBus.DriveSda | I2C/I2C_software/main.c:10-11 | WRITE_SDA_x sets the SDA latch, records the write and touches nothing else |
| I2cSoftware.I2cBus.SampleSda | I2C/I2C_software/main.c:14 | READ_SDA_VAL returns the next level of the input stream and records it |
| I2cSoftware.I2cBus.Start | I2C/I2C_software/main.c:62-71 | I2C_Start releases SCL, releases SDA, pulls SDA low, pulls SCL low; both lines end low |
| I2cSoftware.I2cBus.Stop | I2C/I2C_software/main.c:73-80 | I2C_Stop pulls SDA low, releases SCL, releases SDA; both lines end high |
| I2cSoftware.I2cBus.ClockOut | I2C/I2C_software/main.c:86-95 | one data bit: SDA set, then one SCL pulse; SCL ends low |
| I2cSoftware.I2cBus.ClockIn | I2C/I2C_software/main.c:122-130 | one received bit: SCL high, SDA read, SCL low |
| I2cSoftware.I2cBus.ReceiveAck | I2C/I2C_software/main.c:98-113 | the ninth clock releases SDA and returns OK iff SDA reads low |
| I2cSoftware.I2cBus.SendAck | I2C/I2C_software/main.c:133-143 | SDA low for ACK, released for NOT_ACK, then one SCL pulse |
| I2cSoftware.I2cBus.Write | I2C/I2C_software/main.c:82-114 | eight data bits MSB first, then the acknowledge clock; OK iff the ninth-clock SDA read is low; exactly one SDA read |
| I2cSoftware.I2cBus.Read | I2C/I2C_software/main.c:116-146 | releases SDA, clocks in 8 levels, returns them assembled MSB first, then drives ACK or NOT_ACK |
| I2cSoftware.I2cBus.SendByte | I2C/I2C_software/main.c:192-195 | one I2C_Write; when it is not acknowledged, I2C_Stop and NOT_OK |
| I2cSoftware.I2cBus.SendAddress | I2C/I2C_software/main.c:150-162 | device address, address high byte and address low byte, each with stop-on-NACK |
| I2cSoftware.I2cBus.At24c32Write | I2C/I2C_software/main.c:176-200 | status, trace and SDA reads are those of the write transaction on the given input stream: START, frame, STOP, with the abort rule |
| I2cSoftware.I2cBus.SendPayload | I2C/I2C_software/main.c:191-196 | the payload loop sends pu8Data[0..u16Num) with stop-on-NACK |
| I2cSoftware.I2cBus.At24c32Read | I2C/I2C_software/main.c:148-174 | addressing with the abort rule, repeated START, address with read bit, ReadCount(num) bytes all ACKed but the last; on OK the buffer holds the assembled bytes and no slot beyond is written |
| I2cSoftware.I2cBus.AddressForRead | I2C/I2C_software/main.c:150-162 | START and the three address bytes with stop-on-NACK |
| I2cSoftware.I2cBus.ReadFrom | I2C/I2C_software/main.c:163-173 | repeated START, the device address with its read bit 0x01 set, then the read phase unless refused |
| I2cSoftware.I2cBus.SendReadAddress | I2C/I2C_software/main.c:163-167 | repeated START and the read address; on NACK, STOP and NOT_OK |
| I2cSoftware.I2cBus.ReadInto | I2C/I2C_software/main.c:169 | pu8Data[i] = I2C_Read(ack): slot i gets the assembled byte and the earlier slots keep theirs |
| I2cSoftware.I2cBus.ReadPhase | I2C/I2C_software/main.c:168-172 | ReadCount(num) bytes stored in order, all ACKed but the last, then STOP; nothing past them written |
| I2cSoftware.I2cBus.ReadAcked | I2C/I2C_software/main.c:168-170 | the loop reads ReadCount(num)-1 bytes with ACK into pu8Data[0..i) in order |
| I2cWire.StartIsStart | I2C/I2C_software/main.c:62-71 | I2C_Start is exactly one START condition (SDA falls with SCL high) and leaves both lines low |
| I2cWire.StopIsStop | I2C/I2C_software/main.c:73-80 | I2C_Stop, from SCL low, is exactly one STOP condition (SDA rises with SCL high) |
| I2cWire.BitOutIsDataBit | I2C/I2C_software/main.c:86-95 | one bit clock is exactly one valid data bit: SDA changes only while SCL is low |
| I2cWire.ByteOutIsData | I2C/I2C_software/main.c:85-97 | the first n bit clocks put the first n MSB-first bits on the bus as data bits and nothing else |
| I2cWire.AckInIsReleasedBit | I2C/I2C_software/main.c:98-111 | the ninth clock of I2C_Write is one data bit with SDA released for the slave |
| I2cWire.WriteIsByteFrame | I2C/I2C_software/main.c:82-114 | I2C_Write on the bus is 8 data bits MSB first and a released acknowledge bit, with no START or STOP |
| I2cWire.WriteReadRoundTrip | I2C/I2C_software/main.c:82-146 | a receiver assembling the first 8 data bits of I2C_Write's frame MSB first gets the byte written |
| I2cWire.BitInIsReleased | I2C/I2C_software/main.c:122-130 | one data clock of I2C_Read leaves SDA released for the slave |
| I2cWire.BitsInReleased | I2C/I2C_software/main.c:119-131 | I2C_Read's 8 data clocks are 8 data bits with SDA released by the master |
| I2cWire.AckOutIsBit | I2C/I2C_software/main.c:133-143 | the acknowledge clock of I2C_Read is one data bit: low for ACK, high for NOT_ACK |
| I2cWire.ReadIsReadFrame | I2C/I2C_software/main.c:116-146 | I2C_Read on the bus is 8 released data bits then the ACK/NOT_ACK bit |
| I2cWire.ReadReturnsDrivenByte | I2C/I2C_software/main.c:121-131 | when the slave drives the MSB-first bits of b on the eight clocks, I2C_Read returns b |
| I2cWire.SentOnBus | I2C/I2C_software/main.c:191-196 | bytes written one after another appear on the bus as their byte frames in order |
| I2cWire.WriteAckedOnBus | I2C/I2C_software/main.c:176-200 | with every byte acknowledged: START, frames of device address, address high, address low, payload, STOP; OK |
| I2cWire.WriteNackedOnBus | I2C/I2C_software/main.c:179-195 | when byte k is the first not acknowledged: START, frames of bytes 0..k, STOP, NOT_OK, and no later byte |
| SpiMaster.WireBit | spi_sw_truyen/main.c:68-80 | wire bit k is three writes at 3k: MOSI := bit, SCK high, SCK low |
| SpiMaster.TransmitBit | spi_sw_truyen/main.c:68-80 | in SPI_Master_Transmit(b), bit 7-k of b goes on MOSI before the k-th clock pulse |
| SpiMaster.TransmitLayout | spi_sw_truyen/main.c:63-83 | CS low first, CS high last, CS untouched in between; exactly 8 bits MSB first, each followed by one SCK pulse |
| SpiMaster.BatchLayout | spi_sw_truyen/main.c:93-96 | n transmissions are 26n writes; write j belongs to byte j/26, so the bytes go out once each in index order |
| SpiMaster.Master.WritePin | spi_sw_truyen/main.c:57-60 | GPIO_WriteBit sets one pin latch, records the write and changes no other pin |
| SpiMaster.Master.Setup | spi_sw_truyen/main.c:56-61 | SPISetup leaves the idle state: SCK low, CS high, MOSI low |
| SpiMaster.Master.Clock | spi_sw_truyen/main.c:49-54 | Clock is one SCK pulse, high then low, and always leaves SCK low |
| SpiMaster.Master.SendBit | spi_sw_truyen/main.c:71-79 | MOSI is set before the rising SCK edge of its clock pulse |
| SpiMaster.Master.Transmit | spi_sw_truyen/main.c:63-83 | the mask-and-shift loop produces exactly the writes of TransmitEvents(b) and leaves CS high, SCK low |
| SpiMaster.Master.SendAll | spi_sw_truyen/main.c:92-96 | one pass of main transmits DataTrans[0..8) in index order |
| SpiSlave.PassAssembles | SPI/spi_sw_receive/main.c:60-68 | one loop pass shifts in at most one level, and dataReceive stays the levels shifted in, assembled MSB first |
| SpiSlave.PassesAssemble | SPI/spi_sw_receive/main.c:60-68 | n passes shift in at most n more levels after the earlier ones, dataReceive assembling them MSB first |
| SpiSlave.ReceiveAssembles | SPI/spi_sw_receive/main.c:55-70 | the result is the levels shifted in, assembled MSB first; at most 8; with 8, the first is bit 7 |
| SpiSlave.NeverSelected | SPI/spi_sw_receive/main.c:58 | while CS reads high nothing is sampled and the receive never returns |
| SpiSlave.Slave.ReadInputs | SPI/spi_sw_receive/main.c:58-63 | one GPIO_ReadInputDataBit consumes the next input levels |
| SpiSlave.Slave.AwaitRise | SPI/spi_sw_receive/main.c:59 | `while(!SCK);` ends exactly where the specification's wait ends |
| SpiSlave.Slave.AwaitFall | SPI/spi_sw_receive/main.c:62-63 | `while(SCK) temp = MOSI;` keeps the last MOSI level read while SCK was high |
| SpiSlave.Slave.AwaitSelected | SPI/spi_sw_receive/main.c:58 | `while(CS);` ends exactly where the specification's wait ends |
| SpiSlave.Slave.Pass | SPI/spi_sw_receive/main.c:61-67 | one pass of the for loop computes the specification's pass |
| SpiSlave.Slave.Receive | SPI/spi_sw_receive/main.c:55-70 | SPI_Slave_Receive returns the specification's result and consumes the same input |
| SpiSlave.Slave.ReceiveEight | SPI/spi_sw_receive/main.c:81-83 | eight receives in a row; Num_Receive holds only the last byte |
| SpiSlave.Slave.Poll | SPI/spi_sw_receive/main.c:79-85 | one pass of main: CS high reads nothing more; CS low receives eight bytes |
| SpiLink.HoldHighPulse | SPI/spi_sw_receive/main.c:62-63 | over a clock pulse, temp ends as the MOSI level held during the pulse |
| SpiLink.PassOnPulse | SPI/spi_sw_receive/main.c:61-67 | a pass starting inside a clock pulse shifts in that pulse's MOSI level |
| SpiLink.PassesOnBits | SPI/spi_sw_receive/main.c:60-68 | over the master's pulses for `bits`, the passes shift in exactly those bits in order |
| SpiLink.TransmitSeen | spi_sw_truyen/main.c:63-83 | what the slave reads during one transmission: CS falls, then each bit's MOSI level and clock pulse |
| SpiLink.FrameReceived | SPI/spi_sw_receive/main.c:55-70 | from idle lines, the slave's receive over one transmission of 8 bits returns them assembled MSB first |
| SpiLink.RoundTrip | SPI/spi_sw_receive/main.c:55-70 | the slave receives the byte the master transmitted, its 8 levels being the byte's MSB-first wire image |
| UartInterrupt.Append | Interrupt/Uart_interrupt/main.c:76-77 | at most 10 entries; earlier entries are kept; below 10 the byte goes at index old bufferIndex and the count grows by 1; when full it is unchanged |
| UartInterrupt.FillKeepsFirst | Interrupt/Uart_interrupt/main.c:76-77 | the buffer holds exactly the first ten bytes received, in arrival order |
| UartInterrupt.FillGrows | Interrupt/Uart_interrupt/main.c:77 | stored bytes are never overwritten: later arrivals only extend the buffer |
| UartInterrupt.Usart.constructor | Interrupt/Uart_interrupt/main.c:7-9 | receivedData 0, bufferIndex 0, buffer zeroed |
| UartInterrupt.Usart.IrqHandler | Interrupt/Uart_interrupt/main.c:71-88 | with RXNE: receivedData is the byte; stored at old bufferIndex with bufferIndex+1 when there is room, else dropped; echoed once. Without RXNE nothing changes. RXNE is cleared and bufferIndex <= 10 |
| CanFrame.Payload | CAN/CAN_TX/main.c:69-70 | a frame's payload is its first DLC data slots |
| CanFrame.FilterIdHigh | CAN/CAN_TX/main.c:80 | `0x321 << 5` fits in the 16-bit field: shifting it back gives 0x321, and bits 4:0 are 0 |
| CanFrame.IdHigh | Bai13_CAN/CAN_RX/main.c:84-85 | a standard identifier occupies bits 15:5 of the high filter halfword |
| CanFrame.MaskCoversIdentifier | CAN/CAN_TX/main.c:82 | mask 0xFFE0 keeps exactly bits 15:5, the 11 identifier bits |
| CanFrame.AcceptsOnly | Bai13_CAN/CAN_RX/main.c:82-90 | for an 11-bit id, filter bank 0 admits it iff id == 0x321 |
| CanFrame.TransmitIdRejected | CAN/CAN_TX/main.c:50 | the identifier 0x123 CAN_TX sends with is not admitted by the filter CAN_RX configures, so CAN_RX never receives that frame |
| CanTx.TransmitData | CAN/CAN_TX/main.c:47-61 | StdId 0x123, RTR data, IDE standard, DLC = length, Data[0..length) = data[0..length); requires length <= 8; CAN_RX's CAN_TransmitData (Bai13_CAN/CAN_RX/main.c, lines 50-64) builds the same frame from its global id 0x123 |
| CanTx.ReceiveData | CAN/CAN_TX/main.c:63-72 | *length = DLC; data[0..DLC) is the payload in order; nothing from index DLC on is written |
| CanTx.Boot | CAN/CAN_TX/main.c:91-95 | main sends the 8-byte data array once, in one frame of DLC 8 with identifier 0x123 |
| CanRx.Node.constructor | Bai13_CAN/CAN_RX/main.c:7-8 | ID 0, TestArray zeroed, FIFO0 empty |
| CanRx.Node.Arrive | Bai13_CAN/CAN_RX/main.c:79-93 | a frame reaches FIFO0 iff filter bank 0 admits its identifier |
| CanRx.Node.ReceiveData | Bai13_CAN/CAN_RX/main.c:66-77 | runs with a message pending; takes the oldest; ID = its StdId, which is 0x321; TestArray[0..DLC) = payload; TestArray[DLC..8) unchanged |
| Servo.UpFromShape | RFID_PROJECT/servo.c:4 | `for (i = from; i <= 1999; i += 20)` stores from, from+20, … : (1999-from)/20+1 values |
| Servo.DownFromShape | RFID_PROJECT/servo.c:12 | `for (i = from; i >= 0; i -= 20)` stores from, from-20, … : from/20+1 values |
| Servo.UpSweep | RFID_PROJECT/servo.c:4-7 | ServoOn writes exactly 100 values 20k, strictly increasing by 20, within [0, 1999], last 1980 |
| Servo.DownSweep | RFID_PROJECT/servo.c:12-15 | ServoOff writes exactly 100 values 1999-20k, strictly decreasing by 20, within [19, 1999] (never 0), last 19 |
| Servo.Tim2.PwmInit | RFID_PROJECT/servo.c:18-41 | the initial compare pulse is 0; the PWM_Init of Servo_control (Module_Test/Servo_control/main.c, lines 32-56) is the same code |
| Servo.Tim2.ServoOn | RFID_PROJECT/servo.c:3-8 | the writes are extended by the upward sweep; CCR1 ends at 1980; every write stays within the period |
| Servo.Tim2.ServoOff | RFID_PROJECT/servo.c:11-16 | the writes are extended by the downward sweep; CCR1 ends at 19; every write stays within the period |
| ServoControl.CycleShape | Module_Test/Servo_control/main.c:18-28 | one iteration writes 200 values: 0..1980 increasing, then 1999..19 decreasing, all within [0, 1999] |
| ServoControl.RepeatWithinPeriod | Module_Test/Servo_control/main.c:16-29 | repeating a run of in-period compare values n times gives n times as many values, all in the period |
| ServoControl.CyclesWithinPeriod | Module_Test/Servo_control/main.c:16-29 | any number of iterations writes 200 values each, all within [0, 1999] |
| ServoControl.Cycle | Module_Test/Servo_control/main.c:17-29 | one iteration appends the up sweep and then the down sweep, leaving CCR1 at 19 |
| ServoControl.Run | Module_Test/Servo_control/main.c:9-30 | PWM_Init's 0 and then n iterations' sweeps; every write within the period |
| BlynkLed.SetBits | Blynk_led/main.c:14 | OR-ing in a mask sets every mask bit and leaves every other bit unchanged |
| BlynkLed.ClearBits | Blynk_led/main.c:30 | AND-ing with the complement of a mask clears every mask bit and leaves every other bit unchanged |
| BlynkLed.SetIdempotent | Blynk_led/main.c:28 | setting bit 13 of ODR a second time changes nothing |
| BlynkLed.ClearUndoesSet | Blynk_led/main.c:28-30 | setting then clearing bit 13 leaves every other ODR bit as it was |
| BlynkLed.ConfigureCrhFields | Blynk_led/main.c:16-19 | after the four CRH updates MODE13 = 0b11, CNF13 = 0b00, and bits outside 23:20 are unchanged |
| BlynkLed.Board.GpioConfig | Blynk_led/main.c:13-22 | IOPCEN set with the other APB2ENR bits unchanged; CRH configured as above; ODR untouched |
| BlynkLed.Board.Blink | Blynk_led/main.c:27-32 | PC13 driven high then low; the other ODR bits and the other registers unchanged |
| BlynkLed.Delay | Blynk_led/main.c:7-9 | delay(n) makes exactly n empty iterations and has no other effect |

## Left out

- Vendor configuration is not modelled. This covers every `RCC_*`, `GPIO_Init`, `TIM_*`, `NVIC_*`, `USART_*` and `CAN_Init` call, with their init records. These calls only fill records and call a library that is not part of this model.
- Timer busy-waits (`delay_us`, `delay_ms`, `Delay_Ms`, `DelayMs`) are treated as no-ops. They depend on clock rates. For the SPI link, their only effect is that a level lasts for several reads of the slave, and the hold count states that.
- Only the master's contribution to the I²C lines is decoded. The open-drain wired-AND with the slave's output is represented by the SDA input stream, not by the decoder.
- The `main` functions of the I²C and SPI master programs are not modelled beyond `SendAll`. Their `while (1)` loops are not modelled as unbounded runs. The same holds for the RX loop of CAN_RX and the blink loop of Blynk_led, which are modelled one iteration at a time.
- SpiLink.RoundTrip: assumes every master write holds for at least three slave reads. It also assumes the master goes on to send a further byte, because the receiver's final `while(!SCK)` returns only at the next clock pulse.
- SpiSlave.Slave.ReceiveEight: states nothing about an input that ends while the program would still be waiting. The program would block there for ever.
- The UART handler is modelled as one call at a time. Its concurrency with the main loop, `volatile`, and the `USART_GetFlagStatus` TXE busy-wait are left out; that wait is taken to end.
- The CAN library calls are not modelled: `CAN_Transmit`, `CAN_Receive`, and the `CAN_TransmitStatus` and `CAN_MessagePending` polling loops. TransmitData returns the frame it hands over, and ReceiveData takes the received frame as a parameter. The status loop's use of `StdId` as a mailbox number is not modelled.
- CanTx.ReceiveData and CanRx.Node.ReceiveData: require a DLC of at most 8, as CAN 2.0A allows. The 4-bit DLC field could also hold 9–15, and then the copy loops would run past the eight slots.
- CanTx.TransmitData: says nothing about the slots from `length` on. The source leaves them uninitialised.
- Filter matching is modelled as a predicate over the high 16-bit halfword. The low halfwords (ID 0x0000, mask 0x0000) compare nothing. The ExtId and FMI fields are not modelled.
- CCR1 is modelled as an unbounded integer. Every value written fits in its 16 bits, so no truncation arises.
- BlynkLed.Delay: requires `timedelay <= 0x7FFF_FFFF`. The counter is a signed `int` compared against an unsigned bound, and it would overflow before reaching a larger bound.
